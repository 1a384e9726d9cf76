/** The API's loops that publish one notification per resource: a deleted project, a
    closed pull request, the services of a repository; and the quoting of channel names
    (internal/api/resource_handlers.go, internal/api/webhook_handlers.go,
    internal/store/events.go). */
module Fanout {
  import opened Basics
  import opened Naming
  import opened Payloads
  import Slug
  import Decimal

  const TeardownChannel := "uran_teardowns"
  const ResourceTeardownChannel := "uran_resource_teardowns"
  const DatabaseTeardownChannel := "uran_db_teardowns"

  datatype Message = Message(channel: string, payload: string)

  class Bus {
    var sent: seq<Message>

    constructor ()
      ensures sent == []
    {
      sent := [];
    }

    /** Notify: an error does not always mean that nothing was published. */
    method Notify(channel: string, payload: string, reply: Reply)
      modifies this
      ensures sent == old(sent) + if reply.Error? then [] else [Message(channel, payload)]
    {
      if !reply.Error? { sent := sent + [Message(channel, payload)]; }
    }
  }

  /** The elements whose call got through. */
  function Through<T>(items: seq<T>, replies: seq<Reply>): seq<T>
    requires |items| <= |replies|
  {
    if items == [] then []
    else (if replies[0].Error? then [] else [items[0]]) + Through(items[1..], replies[1..])
  }

  lemma {:induction false} ThroughSnoc<T>(items: seq<T>, item: T, replies: seq<Reply>)
    requires |items| < |replies|
    ensures Through(items + [item], replies) == Through(items, replies) + if replies[|items|].Error? then [] else [item]
  {
    if items == [] {
      assert [item][1..] == [];
    } else {
      ThroughSnoc(items[1..], item, replies[1..]);
      assert (items + [item])[1..] == items[1..] + [item];
    }
  }

  // ------------------------------------------------- deleting a project

  function WorkloadMessages(org: int, slugs: seq<string>): (ms: seq<Message>)
    ensures |ms| == |slugs|
  {
    seq(|slugs|, i requires 0 <= i < |slugs| =>
      Message(ResourceTeardownChannel, PrintWorkload(NamespaceForOrg(org), slugs[i])))
  }

  /** databases are pairs of a slug and an engine. */
  function DatabaseMessages(org: int, databases: seq<(string, string)>): (ms: seq<Message>)
    ensures |ms| == |databases|
  {
    seq(|databases|, i requires 0 <= i < |databases| =>
      Message(DatabaseTeardownChannel,
              PrintDatabase(Instance(NamespaceForOrg(org), DatabaseCluster(databases[i].0), databases[i].1))))
  }

  function ProjectMessages(org: int, slugs: seq<string>, databases: seq<(string, string)>): (ms: seq<Message>)
    ensures |ms| == |slugs| + |databases|
  {
    WorkloadMessages(org, slugs) + DatabaseMessages(org, databases)
  }

  lemma Regroup<T>(a: seq<T>, b: seq<T>, c: seq<T>)
    ensures a + (b + c) == (a + b) + c
  {
  }

  lemma {:induction false} ThroughConcat<T>(a: seq<T>, b: seq<T>, replies: seq<Reply>)
    requires |a| + |b| <= |replies|
    ensures Through(a + b, replies) == Through(a, replies) + Through(b, replies[|a|..])
  {
    if a == [] {
      assert a + b == b && replies[0..] == replies;
    } else {
      ThroughConcat(a[1..], b, replies[1..]);
      assert (a + b)[1..] == a[1..] + b && (a + b)[0] == a[0];
      assert replies[1..][|a| - 1..] == replies[|a|..];
      var head := if replies[0].Error? then [] else [a[0]];
      Regroup(head, Through(a[1..], replies[1..]), Through(b, replies[|a|..]));
    }
  }

  /** One more notification of a loop that publishes all the messages. */
  lemma OneMore(all: seq<Message>, i: nat, replies: seq<Reply>, start: seq<Message>, sent: seq<Message>)
    requires i < |all| <= |replies| && sent == start + Through(all[..i], replies)
    ensures sent + (if replies[i].Error? then [] else [all[i]]) == start + Through(all[..i + 1], replies)
  {
    ThroughSnoc(all[..i], all[i], replies);
    assert all[..i + 1] == all[..i] + [all[i]];
    ghost var before, more := Through(all[..i], replies), if replies[i].Error? then [] else [all[i]];
    assert Through(all[..i + 1], replies) == before + more;
    hide *;
    assert (start + before) + more == start + (before + more);
  }

  method NotifyWorkloads(bus: Bus, org: int, slugs: seq<string>, replies: seq<Reply>)
    requires |replies| >= |slugs|
    modifies bus
    ensures bus.sent == old(bus.sent) + Through(WorkloadMessages(org, slugs), replies)
  {
    ghost var all := WorkloadMessages(org, slugs);
    assert Through(all[..0], replies) == [];
    hide Through, NamespaceForOrg;
    for i := 0 to |slugs|
      invariant bus.sent == old(bus.sent) + Through(all[..i], replies)
    {
      OneMore(all, i, replies, old(bus.sent), bus.sent);
      bus.Notify(ResourceTeardownChannel, "svc:" + NamespaceForOrg(org) + ":" + slugs[i], replies[i]);
    }
    assert all[..|slugs|] == all;
  }

  method NotifyDatabases(bus: Bus, org: int, databases: seq<(string, string)>, replies: seq<Reply>)
    requires |replies| >= |databases|
    modifies bus
    ensures bus.sent == old(bus.sent) + Through(DatabaseMessages(org, databases), replies)
  {
    ghost var all := DatabaseMessages(org, databases);
    assert Through(all[..0], replies) == [];
    hide Through, NamespaceForOrg, DatabaseCluster;
    for i := 0 to |databases|
      invariant bus.sent == old(bus.sent) + Through(all[..i], replies)
    {
      OneMore(all, i, replies, old(bus.sent), bus.sent);
      bus.Notify(DatabaseTeardownChannel,
                 NamespaceForOrg(org) + ":" + DatabaseCluster(databases[i].0) + ":" + databases[i].1, replies[i]);
    }
    assert all[..|databases|] == all;
  }

  /** The two loops of handleDeleteProject, once its rows are deleted. */
  method DeleteProject(bus: Bus, org: int, slugs: seq<string>, databases: seq<(string, string)>, replies: seq<Reply>)
    requires |replies| == |slugs| + |databases|
    modifies bus
    ensures bus.sent == old(bus.sent) + Through(ProjectMessages(org, slugs, databases), replies)
  {
    NotifyWorkloads(bus, org, slugs, replies);
    NotifyDatabases(bus, org, databases, replies[|slugs|..]);
    ghost var first, second := WorkloadMessages(org, slugs), DatabaseMessages(org, databases);
    ThroughConcat(first, second, replies);
    assert ProjectMessages(org, slugs, databases) == first + second;
    hide *;
    Regroup(old(bus.sent), Through(first, replies), Through(second, replies[|slugs|..]));
  }

  /** What the controller does with a message. */
  datatype Order = Workload(namespace: string, name: string) | Whole(namespace: string) | Database(d: Instance)
    | Preview(service: int, pr: int) | Ignored

  function Ordered(m: Message): Order {
    if m.channel == ResourceTeardownChannel then
      var t := ParseResource(m.payload);
      if t.DeleteWorkload? then Workload(t.namespace, t.name)
      else if t.DeleteNamespace? then Whole(t.namespace)
      else Ignored
    else if m.channel == DatabaseTeardownChannel then
      var d := ParseDatabase(m.payload);
      if d.Some? then Database(d.value) else Ignored
    else if m.channel == TeardownChannel then
      var t := ParseTeardown(m.payload);
      if t.Some? then Preview(t.value.0, t.value.1) else Ignored
    else Ignored
  }

  function OrdersFor(org: int, slugs: seq<string>, databases: seq<(string, string)>): (orders: seq<Order>)
    ensures |orders| == |slugs| + |databases|
  {
    seq(|slugs|, i requires 0 <= i < |slugs| => Workload(NamespaceForOrg(org), slugs[i]))
    + seq(|databases|, i requires 0 <= i < |databases| =>
        Database(Instance(NamespaceForOrg(org), DatabaseCluster(databases[i].0), databases[i].1)))
  }

  function Received(sent: seq<Message>): (orders: seq<Order>)
    ensures |orders| == |sent| && forall i :: 0 <= i < |sent| ==> orders[i] == Ordered(sent[i])
  {
    seq(|sent|, i requires 0 <= i < |sent| => Ordered(sent[i]))
  }

  lemma {:induction false} ReceivedThrough(messages: seq<Message>, orders: seq<Order>, replies: seq<Reply>)
    requires |messages| == |orders| <= |replies|
    requires forall i :: 0 <= i < |messages| ==> Ordered(messages[i]) == orders[i]
    ensures Received(Through(messages, replies)) == Through(orders, replies)
  {
    hide Ordered;
    if messages != [] {
      ReceivedThrough(messages[1..], orders[1..], replies[1..]);
      assert messages[0] in messages;
    }
  }

  /** Every workload and database of a deleted project is deleted exactly once, in order,
      except those whose notification failed: the controller reads each payload as the
      namespace, name and engine it was printed from. */
  lemma DeletedProjectIsUnderstood(org: int, slugs: seq<string>, databases: seq<(string, string)>, replies: seq<Reply>)
    requires |replies| == |slugs| + |databases|
    requires forall i :: 0 <= i < |slugs| ==> Slug.IsSlug(slugs[i])
    requires forall i :: 0 <= i < |databases| ==> Slug.IsSlug(databases[i].0) && COLON !in databases[i].1
    ensures Received(Through(ProjectMessages(org, slugs, databases), replies))
      == Through(OrdersFor(org, slugs, databases), replies)
  {
    var messages, orders := ProjectMessages(org, slugs, databases), OrdersFor(org, slugs, databases);
    forall i | 0 <= i < |messages| ensures Ordered(messages[i]) == orders[i] {
      if i < |slugs| {
        WorkloadOrdered(org, slugs[i]);
      } else {
        DatabaseOrdered(org, databases[i - |slugs|].0, databases[i - |slugs|].1);
      }
    }
    ReceivedThrough(messages, orders, replies);
  }

  lemma WorkloadOrdered(org: int, slug: string)
    requires Slug.IsSlug(slug)
    ensures Ordered(Message(ResourceTeardownChannel, PrintWorkload(NamespaceForOrg(org), slug)))
      == Workload(NamespaceForOrg(org), slug)
  {
    NoColons(org, slug);
    WorkloadRoundTrip(NamespaceForOrg(org), slug);
    hide PrintWorkload, ParseResource, NamespaceForOrg;
  }

  lemma DatabaseOrdered(org: int, slug: string, engine: string)
    requires Slug.IsSlug(slug) && COLON !in engine
    ensures var d := Instance(NamespaceForOrg(org), DatabaseCluster(slug), engine);
      Ordered(Message(DatabaseTeardownChannel, PrintDatabase(d))) == Database(d)
  {
    NoColons(org, slug);
    var d := Instance(NamespaceForOrg(org), DatabaseCluster(slug), engine);
    DatabaseRoundTrip(d);
    hide PrintDatabase, ParseDatabase, NamespaceForOrg, DatabaseCluster;
    assert DatabaseTeardownChannel != ResourceTeardownChannel by { assert |DatabaseTeardownChannel| != |ResourceTeardownChannel|; }
  }

  // ------------------------------------------- matching services to a push

  predicate Distinct(ids: seq<nat>) {
    forall i, j :: 0 <= i < j < |ids| ==> ids[i] != ids[j]
  }

  /** The first occurrences, in order. */
  function Dedup(ids: seq<nat>): seq<nat> {
    if ids == [] then []
    else
      var front := Dedup(ids[..|ids| - 1]);
      if ids[|ids| - 1] in front then front else front + [ids[|ids| - 1]]
  }

  lemma {:induction false} DedupKeepsEach(ids: seq<nat>)
    ensures Distinct(Dedup(ids))
    ensures forall id :: id in Dedup(ids) <==> id in ids
  {
    if ids != [] {
      DedupKeepsEach(ids[..|ids| - 1]);
      assert ids == ids[..|ids| - 1] + [ids[|ids| - 1]];
    }
  }

  /** More ids only add to the end: each id stands where its first occurrence puts it. */
  lemma {:induction false} DedupKeepsOrder(ids: seq<nat>, more: seq<nat>)
    ensures Dedup(ids) <= Dedup(ids + more)
    ensures more != [] && more[0] !in ids ==> Dedup(ids + more[..1]) == Dedup(ids) + [more[0]]
    decreases |more|
  {
    DedupKeepsEach(ids);
    if more == [] {
      assert ids + more == ids;
    } else {
      DedupKeepsOrder(ids, more[..|more| - 1]);
      assert (ids + more)[..|ids + more| - 1] == ids + more[..|more| - 1];
      assert (ids + more[..1])[..|ids|] == ids;
    }
  }

  /** The ids found, url by url; a URL that is empty is not looked up. */
  function Matches(urls: seq<string>, found: seq<Option<seq<nat>>>): seq<nat>
    requires |urls| <= |found|
  {
    if urls == [] then []
    else
      var i := |urls| - 1;
      Matches(urls[..i], found) + if urls[i] == "" || found[i].None? then [] else found[i].value
  }

  /** The inner loop: the matches of one lookup. */
  method AddMatches(seen: set<nat>, out: seq<nat>, matches: seq<nat>, ghost before: seq<nat>)
    returns (seen': set<nat>, out': seq<nat>)
    requires out == Dedup(before) && forall id :: id in seen <==> id in out
    ensures out' == Dedup(before + matches) && forall id :: id in seen' <==> id in out'
  {
    seen', out' := seen, out;
    assert before + matches[..0] == before;
    for j := 0 to |matches|
      invariant out' == Dedup(before + matches[..j])
      invariant forall id :: id in seen' <==> id in out'
    {
      ghost var ids := before + matches[..j + 1];
      assert ids[..|ids| - 1] == before + matches[..j] && ids[|ids| - 1] == matches[j];
      if matches[j] !in seen' {
        seen' := seen' + {matches[j]};
        out' := out' + [matches[j]];
      }
    }
    assert matches[..|matches|] == matches;
  }

  /** dedupeServices; found are the results of the lookups, None for an error, which ends
      the request. Otherwise each service that any lookup matched is listed once, so that
      a push deploys it once. */
  method DedupeServices(urls: seq<string>, found: seq<Option<seq<nat>>>) returns (r: Option<seq<nat>>)
    requires |urls| == |found|
    ensures r.None? <==> exists i :: 0 <= i < |urls| && urls[i] != "" && found[i].None?
    ensures r.Some? ==> r.value == Dedup(Matches(urls, found))
    ensures r.Some? ==> Distinct(r.value) && forall id :: id in r.value <==> id in Matches(urls, found)
  {
    var seen: set<nat>, out: seq<nat> := {}, [];
    assert urls[..0] == [];
    for i := 0 to |urls|
      invariant out == Dedup(Matches(urls[..i], found))
      invariant forall id :: id in seen <==> id in out
      invariant forall j :: 0 <= j < i ==> urls[j] == "" || found[j].Some?
    {
      assert urls[..i + 1][..i] == urls[..i];
      ghost var before := Matches(urls[..i], found);
      assert Matches(urls[..i + 1], found) == before + if urls[i] == "" || found[i].None? then [] else found[i].value;
      hide Matches, Dedup;
      if urls[i] != "" {
        if found[i].None? { return None; }
        seen, out := AddMatches(seen, out, found[i].value, before);
      } else {
        assert before + [] == before;
      }
    }
    assert urls[..|urls|] == urls;
    DedupKeepsEach(Matches(urls, found));
    return Some(out);
  }

  // --------------------------------------------------- closing a pull request

  function TeardownMessages(services: seq<nat>, pr: int): (ms: seq<Message>)
    ensures |ms| == |services|
  {
    seq(|services|, i requires 0 <= i < |services| => Message(TeardownChannel, PrintTeardown(services[i], pr)))
  }

  /** The loop of handlePullRequest for a closed pull request. */
  method TearDownPreviews(bus: Bus, services: seq<nat>, pr: int, replies: seq<Reply>)
    requires |replies| == |services|
    modifies bus
    ensures bus.sent == old(bus.sent) + Through(TeardownMessages(services, pr), replies)
  {
    ghost var all := TeardownMessages(services, pr);
    assert Through(all[..0], replies) == [];
    hide Through, PrintTeardown;
    for i := 0 to |services|
      invariant bus.sent == old(bus.sent) + Through(all[..i], replies)
    {
      OneMore(all, i, replies, old(bus.sent), bus.sent);
      bus.Notify(TeardownChannel, PrintTeardown(services[i], pr), replies[i]);
    }
    assert all[..|services|] == all;
  }

  function PreviewOrders(services: seq<nat>, pr: int): (orders: seq<Order>)
    ensures |orders| == |services|
  {
    seq(|services|, i requires 0 <= i < |services| => Preview(services[i], pr))
  }

  lemma PreviewOrdered(service: int, pr: int)
    requires Decimal.InInt64(service) && Decimal.InInt64(pr)
    ensures Ordered(Message(TeardownChannel, PrintTeardown(service, pr))) == Preview(service, pr)
  {
    TeardownRoundTrip(service, pr);
    hide PrintTeardown, ParseTeardown;
    assert |TeardownChannel| != |ResourceTeardownChannel| && |TeardownChannel| != |DatabaseTeardownChannel|;
  }

  /** ... and the controller tears down that pull request's preview of each service. */
  lemma PreviewTeardownsAreUnderstood(services: seq<nat>, pr: int, replies: seq<Reply>)
    requires |replies| == |services| && Decimal.InInt64(pr)
    requires forall i :: 0 <= i < |services| ==> Decimal.InInt64(services[i])
    ensures Received(Through(TeardownMessages(services, pr), replies)) == Through(PreviewOrders(services, pr), replies)
  {
    forall i | 0 <= i < |services| ensures Ordered(TeardownMessages(services, pr)[i]) == PreviewOrders(services, pr)[i] {
      PreviewOrdered(services[i], pr);
      hide Ordered, PrintTeardown;
    }
    hide *;
    ReceivedThrough(TeardownMessages(services, pr), PreviewOrders(services, pr), replies);
  }

  // ----------------------------------------------------- quoted identifiers

  const QUOTE := '"'

  function Doubled(ident: string): string {
    if ident == "" then ""
    else (if ident[0] == QUOTE then [QUOTE, QUOTE] else [ident[0]]) + Doubled(ident[1..])
  }

  function Quoted(ident: string): string { [QUOTE] + Doubled(ident) + [QUOTE] }

  /** How Postgres reads what follows the opening quote: the identifier up to the first
      quote that is not doubled, and the text behind it. */
  function Unquote(s: string): Option<(string, string)> {
    if s == "" then None
    else if s[0] != QUOTE then
      var tail := Unquote(s[1..]);
      if tail.None? then None else Some(([s[0]] + tail.value.0, tail.value.1))
    else if |s| > 1 && s[1] == QUOTE then
      var tail := Unquote(s[2..]);
      if tail.None? then None else Some(([QUOTE] + tail.value.0, tail.value.1))
    else Some(("", s[1..]))
  }

  lemma {:induction false} DoubledSnoc(ident: string, c: char)
    ensures Doubled(ident + [c]) == Doubled(ident) + if c == QUOTE then [QUOTE, QUOTE] else [c]
  {
    if ident == "" {
      assert [c][1..] == "";
    } else {
      DoubledSnoc(ident[1..], c);
      assert (ident + [c])[1..] == ident[1..] + [c];
    }
  }

  /** pgQuoteIdent. */
  method PgQuoteIdent(ident: string) returns (out: string)
    ensures out == Quoted(ident)
  {
    out := [QUOTE];
    assert ident[..0] == "";
    for i := 0 to |ident|
      invariant out == [QUOTE] + Doubled(ident[..i])
    {
      DoubledSnoc(ident[..i], ident[i]);
      assert ident[..i + 1] == ident[..i] + [ident[i]];
      if ident[i] == QUOTE { out := out + [QUOTE]; }
      out := out + [ident[i]];
    }
    assert ident[..|ident|] == ident;
    out := out + [QUOTE];
  }

  lemma UnquoteStep(c: char, tail: string)
    requires Unquote(tail).Some?
    ensures c != QUOTE ==> Unquote([c] + tail) == Some(([c] + Unquote(tail).value.0, Unquote(tail).value.1))
    ensures Unquote([QUOTE, QUOTE] + tail) == Some(([QUOTE] + Unquote(tail).value.0, Unquote(tail).value.1))
  {
    assert ([c] + tail)[1..] == tail && ([QUOTE, QUOTE] + tail)[2..] == tail;
  }

  /** The quoted identifier and what follows it, without the opening quote. */
  function Closed(ident: string, rest: string): string { Doubled(ident) + [QUOTE] + rest }

  lemma ClosedStep(ident: string, rest: string)
    requires ident != ""
    ensures Closed(ident, rest) == (if ident[0] == QUOTE then [QUOTE, QUOTE] else [ident[0]]) + Closed(ident[1..], rest)
  {
  }

  lemma UnquoteEnd(rest: string)
    requires rest != "" ==> rest[0] != QUOTE
    ensures Unquote(Closed("", rest)) == Some(("", rest))
  {
    assert ("" + [QUOTE] + rest)[1..] == rest;
  }

  /** A quoted identifier is read back whole, and none of it is read as anything else,
      whatever characters it holds. */
  lemma {:induction false} QuotedIsReadBack(ident: string, rest: string)
    requires rest != "" ==> rest[0] != QUOTE
    ensures Quoted(ident) + rest == [QUOTE] + Closed(ident, rest)
    ensures Unquote(Closed(ident, rest)) == Some((ident, rest))
  {
    if ident == "" {
      UnquoteEnd(rest);
    } else {
      QuotedIsReadBack(ident[1..], rest);
      ClosedStep(ident, rest);
      hide Unquote, Closed, Doubled;
      UnquoteStep(ident[0], Closed(ident[1..], rest));
      assert ident == [ident[0]] + ident[1..];
    }
    QuotedFollowed(ident, rest);
  }

  lemma QuotedFollowed(ident: string, rest: string)
    ensures Quoted(ident) + rest == [QUOTE] + Closed(ident, rest)
  {
    hide Doubled;
  }
}
