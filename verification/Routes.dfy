// The routes of a site: one for every entry of the site's URL list, named after the truncated hash of its host.
module Routes {
  import opened Kube
  import opened Deployments

  /** What the ingress of a site is made from. */
  datatype Ingress = Ingress(site: string, uid: string, urls: seq<string>, whitelist: Option<string>, initialized: bool)

  datatype Route = Route(
    owners: seq<Owner>,
    termination: string,
    insecurePolicy: string,
    service: string,
    port: nat,
    labels: map<string, string>,
    annotations: map<string, string>,
    host: string)

  const NEW_ROUTE := Route([], "", "", "", 0, map[], map[], "")

  const WHITELIST := "haproxy.router.openshift.io/ip_whitelist"
  const TIMEOUT := "haproxy.router.openshift.io/timeout"

  function RouteLabels(site: string): map<string, string> {
    map["drupalSite" := site, "app" := "drupal", "route" := "drupal"]
  }

  /** Selected by the labels of the site's routes. */
  predicate Owned(r: Route, site: string) {
    && "drupalSite" in r.labels && r.labels["drupalSite"] == site
    && "app" in r.labels && r.labels["app"] == "drupal"
    && "route" in r.labels && r.labels["route"] == "drupal"
  }

  function RouteForDrupalSite(r: Route, x: Ingress, url: string): (s: Route)
    ensures Owned(s, x.site) && s.host == url
  {
    var annotations := if x.whitelist.Some? then r.annotations[WHITELIST := x.whitelist.value] else r.annotations;
    Route(AddOwner(r.owners, Owner(x.site, x.uid)), "edge", "Redirect", x.site, 8080,
          r.labels + RouteLabels(x.site), annotations[TIMEOUT := "200s"], url)
  }

  /** What a visitor of the site depends on, and the operator's own marks. */
  predicate Leads(r: Route, x: Ingress) {
    && r.service == x.site && r.port == 8080
    && r.termination == "edge" && r.insecurePolicy == "Redirect"
    && "haproxy.router.openshift.io/timeout" in r.annotations
    && r.annotations["haproxy.router.openshift.io/timeout"] == "200s"
    && (x.whitelist.Some? ==>
          && "haproxy.router.openshift.io/ip_whitelist" in r.annotations
          && r.annotations["haproxy.router.openshift.io/ip_whitelist"] == x.whitelist.value)
    && (exists i :: 0 <= i < |r.owners| && r.owners[i].uid == x.uid)
    && "drupalSite" in r.labels && r.labels["drupalSite"] == x.site
    && "app" in r.labels && r.labels["app"] == "drupal" && "route" in r.labels && r.labels["route"] == "drupal"
  }

  /** Everything else on an existing route stays, a whitelist among it if the site has none to set. */
  ghost predicate LeavesAlone(before: Route, after: Route, x: Ingress) {
    && (forall k :: k !in ["drupalSite", "app", "route"] ==>
          (k in before.labels <==> k in after.labels) && (k in before.labels ==> after.labels[k] == before.labels[k]))
    && (forall k ::
          (k != "haproxy.router.openshift.io/timeout"
           && (x.whitelist.Some? ==> k != "haproxy.router.openshift.io/ip_whitelist")) ==>
          && (k in before.annotations <==> k in after.annotations)
          && (k in before.annotations ==> after.annotations[k] == before.annotations[k]))
    && before.owners <= after.owners <= before.owners + [Owner(x.site, x.uid)]
  }

  lemma ReadyRoute(r: Route, x: Ingress, url: string)
    ensures
      var s := RouteForDrupalSite(r, x, url);
      Leads(s, x) && LeavesAlone(r, s, x) && s.host == url
  {
    var s := RouteForDrupalSite(r, x, url);
    if s.owners != r.owners {
      assert s.owners[|r.owners|].uid == x.uid;
    }
  }

  /** Setting up a route again changes no more than setting it up once. */
  lemma LeavesAloneAgain(a: Route, b: Route, c: Route, x: Ingress)
    requires LeavesAlone(a, b, x) && LeavesAlone(b, c, x) && Leads(b, x)
    requires c.owners == b.owners
    ensures LeavesAlone(a, c, x)
  {
  }

  lemma OwnerOnce(r: Route, x: Ingress, url: string)
    requires Leads(r, x)
    ensures RouteForDrupalSite(r, x, url).owners == r.owners
  {
  }

  // ------------------------------------------------------------------ names

  /** The first four bytes of a digest, in hexadecimal. */
  ghost predicate FixedLength(hash: string -> string) {
    forall url :: |hash(url)| == 8
  }

  function RouteName(hash: string -> string, site: string, url: string): string {
    site + "-" + hash(url)
  }

  /** Because the suffix has a fixed length, the name of a route tells the site and the hash. */
  lemma NameTellsSite(hash: string -> string, a: string, b: string, u: string, v: string)
    requires FixedLength(hash)
    ensures RouteName(hash, a, u) == RouteName(hash, b, v) <==> a == b && hash(u) == hash(v)
  {
    var m, n := RouteName(hash, a, u), RouteName(hash, b, v);
    assert |hash(u)| == |hash(v)| == 8;
    assert m[..|m| - 9] == a && n[..|n| - 9] == b;
    assert m[|m| - 8..] == hash(u) && n[|n| - 8..] == hash(v);
  }

  // ------------------------------------------------------------------ one pass as functions

  function Current(routes: map<string, Route>, name: string): Route {
    if name in routes then routes[name] else NEW_ROUTE
  }

  function EnsureOne(routes: map<string, Route>, hash: string -> string, x: Ingress, url: string): map<string, Route> {
    var name := RouteName(hash, x.site, url);
    routes[name := RouteForDrupalSite(Current(routes, name), x, url)]
  }

  /** One route for every entry, in order; an entry with the same hash as an earlier one takes its route over. */
  function EnsureEach(routes: map<string, Route>, hash: string -> string, x: Ingress,
      urls: seq<string>): map<string, Route>
    decreases |urls|
  {
    if urls == [] then routes
    else EnsureOne(EnsureEach(routes, hash, x, urls[..|urls| - 1]), hash, x, urls[|urls| - 1])
  }

  /** The names the removal of extra routes deletes: computed from the hosts, not from the objects listed. */
  function ExtraNames(routes: map<string, Route>, hash: string -> string, x: Ingress): set<string> {
    set n | n in routes && Owned(routes[n], x.site) && routes[n].host !in x.urls ::
      RouteName(hash, x.site, routes[n].host)
  }

  function Pass(routes: map<string, Route>, hash: string -> string, x: Ingress): map<string, Route> {
    var ensured := EnsureEach(routes, hash, x, x.urls);
    ensured - ExtraNames(ensured, hash, x)
  }

  // ------------------------------------------------------------------ the table

  class RouteTable {
    var routes: map<string, Route>
    const hash: string -> string

    constructor (hash: string -> string, routes: map<string, Route>)
      ensures this.hash == hash && this.routes == routes
    {
      this.hash, this.routes := hash, routes;
    }

    /** Create-or-update of the route of one entry. */
    method CreateOrUpdateRoute(x: Ingress, url: string, call: Call) returns (failed: bool)
      modifies `routes
      ensures routes == if failed then old(routes) else EnsureOne(old(routes), hash, x, url)
      ensures call == SUCCEEDS ==> !failed
    {
      var name := RouteName(hash, x.site, url);
      if call.readFails {
        return true;
      }
      var wanted := RouteForDrupalSite(Current(routes, name), x, url);
      if name in routes && routes[name] == wanted {
        assert routes[name := wanted] == routes;
        return false;
      }
      if call.write != Accepted {
        return true;
      }
      routes := routes[name := wanted];
      return false;
    }

    /** The `route` resource: stops at the first error. */
    method EnsureRoutes(x: Ingress, calls: nat -> Call) returns (failed: bool)
      modifies `routes
      ensures exists k ::
        && 0 <= k <= |x.urls| && routes == EnsureEach(old(routes), hash, x, x.urls[..k])
        && (!failed ==> k == |x.urls|)
      ensures !failed ==> forall url :: url in x.urls ==>
        var n := x.site + "-" + hash(url);
        n in routes && Leads(routes[n], x) && (n in old(routes) ==> LeavesAlone(old(routes)[n], routes[n], x))
      ensures (forall i: nat :: calls(i) == SUCCEEDS) ==> !failed
    {
      hide Leads, LeavesAlone;
      for i := 0 to |x.urls|
        invariant routes == EnsureEach(old(routes), hash, x, x.urls[..i])
      {
        failed := CreateOrUpdateRoute(x, x.urls[i], calls(i));
        if failed {
          return true;
        }
        assert x.urls[..i + 1][..i] == x.urls[..i];
      }
      assert x.urls[..|x.urls|] == x.urls;
      forall url | url in x.urls
        ensures
          var n := x.site + "-" + hash(url);
          n in routes && Leads(routes[n], x) && (n in old(routes) ==> LeavesAlone(old(routes)[n], routes[n], x))
      {
        EnsureEachLeads(old(routes), hash, x, x.urls, url);
      }
      return false;
    }

    /** Deletes the route a host would have, if it is there. */
    method EnsureNoRoute(x: Ingress, url: string, call: Call) returns (failed: bool)
      modifies `routes
      ensures routes == if failed then old(routes) else old(routes) - {RouteName(hash, x.site, url)}
      ensures call == SUCCEEDS ==> !failed
    {
      var name := RouteName(hash, x.site, url);
      if call.readFails {
        return true;
      }
      if name !in routes {
        assert routes - {name} == routes;
        return false;
      }
      if call.write != Accepted {
        return true;
      }
      routes := routes - {name};
      return false;
    }

    /** The routes with the labels of the site, in no particular order. */
    method ListRoutes(site: string) returns (items: seq<Route>)
      ensures forall r :: r in items <==> exists n :: n in routes && routes[n] == r && Owned(r, site)
    {
      items := [];
      var names := routes.Keys;
      while names != {}
        invariant names <= routes.Keys
        invariant forall r :: r in items <==> exists n :: n in routes && n !in names && routes[n] == r && Owned(r, site)
        decreases |names|
      {
        var n :| n in names;
        names := names - {n};
        if Owned(routes[n], site) {
          items := items + [routes[n]];
        }
      }
    }

    /** Whether the spec asks for a host. */
    method Requested(host: string, urls: seq<string>) returns (flag: bool)
      ensures flag <==> host in urls
    {
      flag := false;
      for i := 0 to |urls|
        invariant flag <==> host in urls[..i]
      {
        if urls[i] == host {
          flag := true;
        }
      }
    }

    /** The hosts of routes the spec no longer asks for. */
    method RoutesToRemove(items: seq<Route>, urls: seq<string>) returns (hosts: seq<string>)
      ensures forall h :: h in hosts <==> exists r :: r in items && r.host == h && h !in urls
    {
      hosts := [];
      for i := 0 to |items|
        invariant forall h :: h in hosts <==> exists r :: r in items[..i] && r.host == h && h !in urls
      {
        var flag := Requested(items[i].host, urls);
        assert items[..i + 1] == items[..i] + [items[i]];
        if !flag {
          hosts := hosts + [items[i].host];
        }
      }
    }

    /** Deletes the routes of some hosts, in order; stops at the first error. */
    method RemoveRoutes(x: Ingress, hosts: seq<string>, calls: string -> Call) returns (failed: bool)
      modifies `routes
      ensures exists gone :: gone <= NamesOf(hash, x.site, hosts) && routes == old(routes) - gone
      ensures !failed ==> routes == old(routes) - NamesOf(hash, x.site, hosts)
      ensures (forall u :: calls(u) == SUCCEEDS) ==> !failed
    {
      hide NamesOf, RouteName;
      NamesOfPrefixes(hash, x.site, hosts);
      for i := 0 to |hosts|
        invariant routes == old(routes) - NamesOf(hash, x.site, hosts[..i])
      {
        failed := EnsureNoRoute(x, hosts[i], calls(hosts[i]));
        if failed {
          return true;
        }
      }
      return false;
    }

    /** Removes what the spec no longer asks for. */
    method EnsureNoExtraRoutes(x: Ingress, listFails: bool, calls: string -> Call) returns (failed: bool)
      modifies `routes
      ensures exists gone :: gone <= ExtraNames(old(routes), hash, x) && routes == old(routes) - gone
      ensures !failed ==> routes == old(routes) - ExtraNames(old(routes), hash, x)
      ensures !listFails && (forall u :: calls(u) == SUCCEEDS) ==> !failed
    {
      hide ExtraNames, NamesOf;
      if listFails {
        assert routes - {} == routes;
        return true;
      }
      var items := ListRoutes(x.site);
      var hosts := RoutesToRemove(items, x.urls);
      NamesOfHosts(routes, hash, x, items, hosts);
      failed := RemoveRoutes(x, hosts, calls);
    }

    /** Before a site is initialized its entries have no routes; every entry is attempted. */
    method EnsureNoRoutes(x: Ingress, calls: string -> Call) returns (failed: bool)
      modifies `routes
      ensures exists gone :: gone <= NamesOf(hash, x.site, x.urls) && routes == old(routes) - gone
      ensures !failed ==> routes == old(routes) - NamesOf(hash, x.site, x.urls)
      ensures (forall u :: calls(u) == SUCCEEDS) ==> !failed
    {
      hide NamesOf, RouteName;
      NamesOfPrefixes(hash, x.site, x.urls);
      failed := false;
      ghost var gone := {};
      assert routes - gone == routes;
      for i := 0 to |x.urls|
        invariant gone <= NamesOf(hash, x.site, x.urls[..i]) <= NamesOf(hash, x.site, x.urls)
        invariant routes == old(routes) - gone
        invariant !failed ==> gone == NamesOf(hash, x.site, x.urls[..i])
        invariant failed ==> exists u :: calls(u) != SUCCEEDS
      {
        var refused := EnsureNoRoute(x, x.urls[i], calls(x.urls[i]));
        if refused {
          failed := true;
        } else {
          gone := gone + {RouteName(hash, x.site, x.urls[i])};
        }
      }
    }

    /** The ingress section: extra routes are removed even when some route could not be ensured. */
    method EnsureIngress(x: Ingress, ensureCalls: nat -> Call, listFails: bool, deleteCalls: string -> Call)
      returns (failed: bool)
      modifies `routes
      ensures !failed ==> routes == if x.initialized then Pass(old(routes), hash, x)
        else old(routes) - NamesOf(hash, x.site, x.urls)
      ensures
        (!listFails && (forall i: nat :: ensureCalls(i) == SUCCEEDS) && (forall u :: deleteCalls(u) == SUCCEEDS)) ==>
        !failed
      ensures !failed && x.initialized ==> forall url :: url in x.urls ==>
        var n := x.site + "-" + hash(url);
        n in routes ==> Leads(routes[n], x) && (n in old(routes) ==> LeavesAlone(old(routes)[n], routes[n], x))
      ensures !failed && !x.initialized ==> forall url :: url in x.urls ==> x.site + "-" + hash(url) !in routes
      ensures forall n :: !OfSite(hash, x.site, n) ==> Same(old(routes), routes, n)
    {
      hide Leads, LeavesAlone;
      if x.initialized {
        var refused := EnsureRoutes(x, ensureCalls);
        ghost var k :| 0 <= k <= |x.urls| && routes == EnsureEach(old(routes), hash, x, x.urls[..k])
          && (!refused ==> k == |x.urls|);
        assert x.urls[..|x.urls|] == x.urls;
        ghost var ensured := routes;
        failed := EnsureNoExtraRoutes(x, listFails, deleteCalls);
        failed := failed || refused;
        forall n | !OfSite(hash, x.site, n) ensures Same(old(routes), routes, n) {
          EnsureEachFrame(old(routes), hash, x, x.urls[..k], n);
        }
      } else {
        failed := EnsureNoRoutes(x, deleteCalls);
      }
    }
  }

  /** A name the routes of the site can have. */
  ghost predicate OfSite(hash: string -> string, site: string, name: string) {
    exists url :: name == RouteName(hash, site, url)
  }

  predicate Same(before: map<string, Route>, after: map<string, Route>, name: string) {
    (name in before <==> name in after) && (name in before ==> after[name] == before[name])
  }

  function NamesOf(hash: string -> string, site: string, hosts: seq<string>): set<string> {
    set h | h in hosts :: RouteName(hash, site, h)
  }

  /** The names of growing parts of a list of hosts. */
  lemma NamesOfPrefixes(hash: string -> string, site: string, hosts: seq<string>)
    ensures NamesOf(hash, site, hosts[..0]) == {} && hosts[..|hosts|] == hosts
    ensures forall i :: 0 <= i < |hosts| ==>
      NamesOf(hash, site, hosts[..i + 1]) == NamesOf(hash, site, hosts[..i]) + {RouteName(hash, site, hosts[i])}
    ensures forall i :: 0 <= i <= |hosts| ==> NamesOf(hash, site, hosts[..i]) <= NamesOf(hash, site, hosts)
  {
    forall i | 0 <= i < |hosts|
      ensures NamesOf(hash, site, hosts[..i + 1]) == NamesOf(hash, site, hosts[..i]) + {RouteName(hash, site, hosts[i])}
    {
      assert hosts[..i + 1] == hosts[..i] + [hosts[i]];
    }
  }

  lemma NamesOfHosts(routes: map<string, Route>, hash: string -> string, x: Ingress, items: seq<Route>,
      hosts: seq<string>)
    requires forall r :: r in items <==> exists n :: n in routes && routes[n] == r && Owned(r, x.site)
    requires forall h :: h in hosts <==> exists r :: r in items && r.host == h && h !in x.urls
    ensures NamesOf(hash, x.site, hosts) == ExtraNames(routes, hash, x)
  {
  }

  // ------------------------------------------------------------------ laws

  /** Ensuring touches the names of the entries only. */
  lemma {:induction false} EnsureEachFrame(routes: map<string, Route>, hash: string -> string, x: Ingress,
      urls: seq<string>, n: string)
    ensures n !in NamesOf(hash, x.site, urls) ==> Same(routes, EnsureEach(routes, hash, x, urls), n)
    decreases |urls|
  {
    if urls != [] {
      var before, last := urls[..|urls| - 1], urls[|urls| - 1];
      EnsureEachFrame(routes, hash, x, before, n);
      assert last in urls && forall u :: u in before ==> u in urls;
      if n !in NamesOf(hash, x.site, urls) {
        forall u | u in before ensures RouteName(hash, x.site, u) != n {
          assert RouteName(hash, x.site, u) in NamesOf(hash, x.site, urls);
        }
        assert RouteName(hash, x.site, last) in NamesOf(hash, x.site, urls);
      }
    }
  }

  /** Every entry has a route under its name, and that route serves an entry of this name. */
  ghost predicate Serves(routes: map<string, Route>, hash: string -> string, x: Ingress, urls: seq<string>, n: string) {
    n in routes && Owned(routes[n], x.site) && routes[n].host in urls && RouteName(hash, x.site, routes[n].host) == n
  }

  lemma {:induction false} EnsureEachServes(routes: map<string, Route>, hash: string -> string, x: Ingress,
      urls: seq<string>, n: string)
    requires n in NamesOf(hash, x.site, urls)
    ensures Serves(EnsureEach(routes, hash, x, urls), hash, x, urls, n)
    decreases |urls|
  {
    var before, last := urls[..|urls| - 1], urls[|urls| - 1];
    if RouteName(hash, x.site, last) != n {
      var u :| u in urls && RouteName(hash, x.site, u) == n;
      assert u in before;
      EnsureEachServes(routes, hash, x, before, n);
    }
  }

  /** Every entry has a route that leads to the site, and what was there before is kept. */
  lemma {:induction false} EnsureEachLeads(routes: map<string, Route>, hash: string -> string, x: Ingress,
      urls: seq<string>, url: string)
    requires url in urls
    ensures
      var n, after := x.site + "-" + hash(url), EnsureEach(routes, hash, x, urls);
      n in after && Leads(after[n], x) && (n in routes ==> LeavesAlone(routes[n], after[n], x))
    decreases |urls|
  {
    hide Leads, LeavesAlone, RouteForDrupalSite;
    var before, last := urls[..|urls| - 1], urls[|urls| - 1];
    var n, r := RouteName(hash, x.site, url),
      Current(EnsureEach(routes, hash, x, before), RouteName(hash, x.site, url));
    if RouteName(hash, x.site, last) == n {
      ReadyRoute(r, x, last);
    }
    if url in before {
      EnsureEachLeads(routes, hash, x, before, url);
      OwnerOnce(r, x, last);
      if n in routes && RouteName(hash, x.site, last) == n {
        LeavesAloneAgain(routes[n], r, RouteForDrupalSite(r, x, last), x);
      }
    } else if exists u :: u in before && RouteName(hash, x.site, u) == n {
      var u :| u in before && RouteName(hash, x.site, u) == n;
      EnsureEachLeads(routes, hash, x, before, u);
      OwnerOnce(r, x, last);
      if n in routes {
        LeavesAloneAgain(routes[n], r, RouteForDrupalSite(r, x, last), x);
      }
    } else {
      EnsureEachFrame(routes, hash, x, before, n);
    }
  }

  /** Every route with the labels of the site is named after its host. */
  ghost predicate WellNamed(routes: map<string, Route>, hash: string -> string, site: string) {
    forall n :: n in routes && Owned(routes[n], site) ==> n == RouteName(hash, site, routes[n].host)
  }

  /** The names of the routes with the labels of the site. */
  function OwnNames(routes: map<string, Route>, site: string): set<string> {
    set n | n in routes && Owned(routes[n], site)
  }

  function OwnHosts(routes: map<string, Route>, site: string): set<string> {
    set n | n in routes && Owned(routes[n], site) :: routes[n].host
  }

  ghost predicate Distinct(hash: string -> string, urls: seq<string>) {
    forall u, v :: u in urls && v in urls && hash(u) == hash(v) ==> u == v
  }

  /** Whatever was there before, a pass leaves exactly one route per name of an entry, each named after its host. */
  lemma PassLeavesEntries(routes: map<string, Route>, hash: string -> string, x: Ingress)
    requires WellNamed(routes, hash, x.site)
    ensures
      var after := Pass(routes, hash, x);
      && WellNamed(after, hash, x.site)
      && OwnNames(after, x.site) == NamesOf(hash, x.site, x.urls)
      && forall n :: n in OwnNames(after, x.site) ==> after[n].host in x.urls
  {
    var ensured := EnsureEach(routes, hash, x, x.urls);
    var after := Pass(routes, hash, x);
    forall n | n in ensured && Owned(ensured[n], x.site) ensures n == RouteName(hash, x.site, ensured[n].host) {
      EnsuredIsWellNamed(routes, hash, x, n);
    }
    forall n | n in NamesOf(hash, x.site, x.urls) ensures n in after && Serves(after, hash, x, x.urls, n) {
      EnsureEachServes(routes, hash, x, x.urls, n);
      WantedStays(ensured, hash, x, n);
    }
    forall n | n in OwnNames(after, x.site) ensures n in NamesOf(hash, x.site, x.urls) && after[n].host in x.urls {
      assert n in ensured && n !in ExtraNames(ensured, hash, x);
    }
  }

  lemma EnsuredIsWellNamed(routes: map<string, Route>, hash: string -> string, x: Ingress, n: string)
    requires WellNamed(routes, hash, x.site)
    requires
      var ensured := EnsureEach(routes, hash, x, x.urls);
      n in ensured && Owned(ensured[n], x.site)
    ensures n == RouteName(hash, x.site, EnsureEach(routes, hash, x, x.urls)[n].host)
  {
    if n in NamesOf(hash, x.site, x.urls) {
      EnsureEachServes(routes, hash, x, x.urls, n);
    } else {
      EnsureEachFrame(routes, hash, x, x.urls, n);
    }
  }

  /** A wanted route is not removed with the extra ones, even when hashes collide. */
  lemma WantedStays(ensured: map<string, Route>, hash: string -> string, x: Ingress, n: string)
    requires forall m :: m in ensured && Owned(ensured[m], x.site) ==> m == RouteName(hash, x.site, ensured[m].host)
    requires Serves(ensured, hash, x, x.urls, n)
    ensures n !in ExtraNames(ensured, hash, x)
  {
  }

  /**
   * Routes match the spec exactly: after a fault-free pass the hosts with a route of the site are the entries of the
   * URL list, with one route each, if and only if the truncated hash tells the entries apart.
   */
  lemma RoutesMatchSpec(routes: map<string, Route>, hash: string -> string, x: Ingress)
    requires WellNamed(routes, hash, x.site) && FixedLength(hash)
    ensures
      var after := Pass(routes, hash, x);
      OwnHosts(after, x.site) == (set u | u in x.urls) <==> Distinct(hash, x.urls)
    ensures
      var after := Pass(routes, hash, x);
      forall m, n ::
        (m in OwnNames(after, x.site) && n in OwnNames(after, x.site) && after[m].host == after[n].host) ==> m == n
  {
    var after := Pass(routes, hash, x);
    PassLeavesEntries(routes, hash, x);
    if Distinct(hash, x.urls) {
      forall u | u in x.urls ensures u in OwnHosts(after, x.site) {
        var n := RouteName(hash, x.site, u);
        assert n in OwnNames(after, x.site);
        NameTellsSite(hash, x.site, x.site, u, after[n].host);
      }
    }
    if OwnHosts(after, x.site) == (set u | u in x.urls) {
      forall u, v | u in x.urls && v in x.urls && hash(u) == hash(v) ensures u == v {
        assert u in OwnHosts(after, x.site) && v in OwnHosts(after, x.site);
        var m :| m in after && Owned(after[m], x.site) && after[m].host == u;
        var n :| n in after && Owned(after[n], x.site) && after[n].host == v;
        assert m == n;
      }
    }
  }

  /** A pass gives no route the labels of another site. */
  lemma OtherOwnedBefore(routes: map<string, Route>, hash: string -> string, x: Ingress, other: string, n: string)
    requires other != x.site && n in OwnNames(Pass(routes, hash, x), other)
    ensures n in OwnNames(routes, other)
  {
    hide RouteName;
    if n in NamesOf(hash, x.site, x.urls) {
      EnsureEachServes(routes, hash, x, x.urls, n);
    } else {
      EnsureEachFrame(routes, hash, x, x.urls, n);
    }
  }

  lemma OtherNameKept(routes: map<string, Route>, hash: string -> string, x: Ingress, other: string, host: string)
    requires FixedLength(hash) && other != x.site
    ensures Same(routes, Pass(routes, hash, x), RouteName(hash, other, host))
  {
    var n := RouteName(hash, other, host);
    forall u ensures RouteName(hash, x.site, u) != n {
      NameTellsSite(hash, x.site, other, u, host);
    }
    EnsureEachFrame(routes, hash, x, x.urls, n);
  }

  /** No pass touches a route of another site, or changes which routes carry another site's labels. */
  lemma PassKeepsOtherSites(routes: map<string, Route>, hash: string -> string, x: Ingress, other: string)
    requires FixedLength(hash) && other != x.site && WellNamed(routes, hash, other)
    ensures
      var after := Pass(routes, hash, x);
      && WellNamed(after, hash, other) && OwnNames(after, other) == OwnNames(routes, other)
      && forall n :: n in OwnNames(routes, other) ==> Same(routes, after, n)
  {
    hide Pass, RouteName;
    var after := Pass(routes, hash, x);
    forall n | n in OwnNames(routes, other) ensures Same(routes, after, n) {
      OtherNameKept(routes, hash, x, other, routes[n].host);
    }
    forall n | n in OwnNames(after, other) ensures n in OwnNames(routes, other)
      && n == RouteName(hash, other, after[n].host) {
      OtherOwnedBefore(routes, hash, x, other, n);
    }
  }
}
