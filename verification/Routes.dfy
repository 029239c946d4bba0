/** What the route operations do to the routes we own, and which route a destination takes. */
module Routes {
  import opened Basics
  import opened Prefix
  import opened Kernel

  /** The kernel reports and holds network prefixes only. */
  predicate AllCanonical(routes: seq<Route>) {
    forall r :: r in routes ==> Canonical(r.prefix)
  }

  lemma PutRouteElements(routes: seq<Route>, route: Route)
    ensures forall r :: r in PutRoute(routes, route) <==>
                        r == route || (r in routes && !(r.prefix == route.prefix && r.metric == route.metric))
  {
    KeepElements(routes, NotAt(route.prefix, route.metric));
  }

  lemma DropOwnedElements(routes: seq<Route>, p: IpAddrMask)
    ensures forall r :: r in DropOwned(routes, p) <==> r in routes && !(Owned(r) && r.prefix == p)
  {
    KeepElements(routes, NotOwnedAt(p));
  }

  lemma RelinkElements(routes: seq<Route>, linked: seq<Route>)
    ensures forall r :: r in routes && !Linked(r) ==> r in Relink(routes, linked)
    ensures forall r :: r in Relink(routes, linked) ==>
            (r in routes && !Linked(r)) || (Linked(r) && Canonical(r.prefix))
  {
    var kept := Keep(routes, NotLinked());
    var added := Keep(linked, FreshLink());
    KeepElements(routes, NotLinked());
    KeepElements(linked, FreshLink());
    assert Relink(routes, linked) == kept + added;
  }

  lemma OffInterfaceElements(routes: seq<Route>)
    ensures forall r :: r in OffInterface(routes) <==> r in routes && r.dev != INTERFACE_NAME
  {
    KeepElements(routes, NotOnInterface());
  }

  /** The read-back lists exactly our routes of the family, default routes excepted. */
  lemma ReadBackElements(routes: seq<Route>, family: Family)
    ensures forall p :: p in ReadBack(routes, family) <==>
                        HasOwned(routes, p) && p.address.family == family && p.cidr > 0
  {
    var kept := Keep(routes, ListedIn(family));
    KeepElements(routes, ListedIn(family));
    var listed := ReadBack(routes, family);
    forall p ensures p in listed <==> HasOwned(routes, p) && p.address.family == family && p.cidr > 0 {
      if p in listed {
        var i :| 0 <= i < |listed| && listed[i] == p;
        assert kept[i] in kept;
      }
      if HasOwned(routes, p) && p.address.family == family && p.cidr > 0 {
        var r :| r in routes && Owned(r) && r.prefix == p;
        assert r in kept;
        var i :| 0 <= i < |kept| && kept[i] == r;
        assert listed[i] == p;
      }
    }
  }

  /** Routes put in for a list of prefixes: others stay as they were, the listed ones lead through the interface. */
  lemma {:induction false} PutAllElements(routes: seq<Route>, prefixes: seq<IpAddrMask>, proto: Proto)
    ensures forall r :: r in PutAll(routes, prefixes, proto) ==>
                        r in routes ||
                        (r.dev == INTERFACE_NAME && r.proto == proto &&
                         exists a :: a in prefixes && r.prefix == NetworkPrefix(a))
    ensures forall r :: r in routes && (forall a :: a in prefixes ==> r.prefix != NetworkPrefix(a)) ==>
                        r in PutAll(routes, prefixes, proto)
    ensures AllCanonical(routes) ==> AllCanonical(PutAll(routes, prefixes, proto))
    decreases prefixes
  {
    if prefixes != [] {
      var route := Route(NetworkPrefix(prefixes[0]), INTERFACE_NAME, proto, 0);
      var next := PutRoute(routes, route);
      PutRouteElements(routes, route);
      NetworkPrefixIdempotent(prefixes[0]);
      PutAllElements(next, prefixes[1..], proto);
      assert prefixes[0] in prefixes;
      assert forall a :: a in prefixes[1..] ==> a in prefixes;
    }
  }

  /** A way through the tunnel that the kernel does not manage by itself. */
  ghost predicate ThroughTunnel(routes: seq<Route>, p: IpAddrMask) {
    exists r :: r in routes && r.dev == INTERFACE_NAME && !r.proto.OnLink? && r.prefix == p
  }

  /** Putting routes in never leaves a destination that had a way through the tunnel without one. */
  lemma {:induction false} PutAllKeepsTunnel(routes: seq<Route>, prefixes: seq<IpAddrMask>, proto: Proto, p: IpAddrMask)
    requires ThroughTunnel(routes, p) && !proto.OnLink?
    ensures ThroughTunnel(PutAll(routes, prefixes, proto), p)
    decreases prefixes
  {
    if prefixes != [] {
      var route := Route(NetworkPrefix(prefixes[0]), INTERFACE_NAME, proto, 0);
      PutRouteKeepsTunnel(routes, route, p);
      PutAllKeepsTunnel(PutRoute(routes, route), prefixes[1..], proto, p);
    }
  }

  lemma PutRouteKeepsTunnel(routes: seq<Route>, route: Route, p: IpAddrMask)
    requires ThroughTunnel(routes, p) && route.dev == INTERFACE_NAME && !route.proto.OnLink?
    ensures ThroughTunnel(PutRoute(routes, route), p)
  {
    PutRouteElements(routes, route);
    var r :| r in routes && r.dev == INTERFACE_NAME && !r.proto.OnLink? && r.prefix == p;
    if r.prefix == route.prefix && r.metric == route.metric {
      assert route in PutRoute(routes, route);
    } else {
      assert r in PutRoute(routes, route);
    }
  }

  // --- lookup ------------------------------------------------------------------

  predicate Beats(a: Route, b: Route) {
    a.prefix.cidr > b.prefix.cidr || (a.prefix.cidr == b.prefix.cidr && a.metric < b.metric)
  }

  /** Main-table lookup: the longest covering prefix, the lowest metric among equals, the earliest among those. */
  ghost function Lookup(routes: seq<Route>, x: IpAddr): Option<Route> {
    if routes == [] then None
    else
      var rest := Lookup(routes[1..], x);
      if Covers(routes[0].prefix, x) && (rest.None? || !Beats(rest.value, routes[0])) then Some(routes[0]) else rest
  }

  lemma {:induction false} LookupIsBest(routes: seq<Route>, x: IpAddr)
    ensures var best := Lookup(routes, x);
            && (best.None? <==> forall r :: r in routes ==> !Covers(r.prefix, x))
            && (best.Some? ==> best.value in routes && Covers(best.value.prefix, x) &&
                               forall r :: r in routes && Covers(r.prefix, x) ==> !Beats(r, best.value))
    decreases routes
  {
    if routes != [] {
      LookupIsBest(routes[1..], x);
      assert forall r :: r in routes <==> r == routes[0] || r in routes[1..];
    }
  }

  /** After an install, nothing but us sits at metric 0 on the prefix. */
  ghost predicate OnlyOurs(routes: seq<Route>, p: IpAddrMask) {
    && Route(p, INTERFACE_NAME, Static, 0) in routes
    && forall r :: r in routes && r.prefix == p && r.metric == 0 ==> r.dev == INTERFACE_NAME
  }

  /** Nothing but the tunnel sits at metric 0 on the prefix, with whatever tag. */
  ghost predicate TunnelAlone(routes: seq<Route>, p: IpAddrMask) {
    && (exists r :: r in routes && r.prefix == p && r.metric == 0 && r.dev == INTERFACE_NAME && !r.proto.OnLink?)
    && forall r :: r in routes && r.prefix == p && r.metric == 0 ==> r.dev == INTERFACE_NAME
  }

  lemma OursIsAlone(routes: seq<Route>, p: IpAddrMask)
    requires OnlyOurs(routes, p)
    ensures TunnelAlone(routes, p)
  {
    assert Route(p, INTERFACE_NAME, Static, 0) in routes;
  }

  /** A destination inside such a prefix leaves through the tunnel unless a strictly longer prefix covers it. */
  lemma TunnelAloneWins(routes: seq<Route>, p: IpAddrMask, x: IpAddr)
    requires AllCanonical(routes) && TunnelAlone(routes, p) && Covers(p, x)
    ensures var best := Lookup(routes, x);
            best.Some? && (best.value.dev == INTERFACE_NAME || best.value.prefix.cidr > p.cidr)
  {
    LookupIsBest(routes, x);
    var ours :| ours in routes && ours.prefix == p && ours.metric == 0 && ours.dev == INTERFACE_NAME;
    var best := Lookup(routes, x).value;
    assert !Beats(ours, best);
    if best.prefix.cidr == p.cidr {
      SameLengthOverlap(best.prefix, p, x);
      assert Canonical(best.prefix) && Canonical(ours.prefix);
    }
  }

  lemma PutRouteKeepsAlone(routes: seq<Route>, route: Route, p: IpAddrMask)
    requires TunnelAlone(routes, p) && AllCanonical(routes)
    requires route.dev == INTERFACE_NAME && !route.proto.OnLink? && route.metric == 0 && Canonical(route.prefix)
    ensures TunnelAlone(PutRoute(routes, route), p) && AllCanonical(PutRoute(routes, route))
  {
    PutRouteElements(routes, route);
    var r :| r in routes && r.prefix == p && r.metric == 0 && r.dev == INTERFACE_NAME && !r.proto.OnLink?;
    if route.prefix == p {
      assert route in PutRoute(routes, route);
    } else {
      assert r in PutRoute(routes, route);
    }
  }

  lemma {:induction false} PutAllKeepsAlone(routes: seq<Route>, prefixes: seq<IpAddrMask>, proto: Proto, p: IpAddrMask)
    requires TunnelAlone(routes, p) && AllCanonical(routes) && !proto.OnLink?
    ensures TunnelAlone(PutAll(routes, prefixes, proto), p) && AllCanonical(PutAll(routes, prefixes, proto))
    decreases prefixes
  {
    hide TunnelAlone, AllCanonical, PutRoute, Canonical;
    if prefixes != [] {
      var route := Route(NetworkPrefix(prefixes[0]), INTERFACE_NAME, proto, 0);
      NetworkPrefixIdempotent(prefixes[0]);
      PutRouteKeepsAlone(routes, route, p);
      PutAllKeepsAlone(PutRoute(routes, route), prefixes[1..], proto, p);
    }
  }

  /** In particular after an install. */
  lemma InstalledPrefixWins(routes: seq<Route>, p: IpAddrMask, x: IpAddr)
    requires AllCanonical(routes) && OnlyOurs(routes, p) && Covers(p, x)
    ensures var best := Lookup(routes, x);
            best.Some? && (best.value.dev == INTERFACE_NAME || best.value.prefix.cidr > p.cidr)
  {
    OursIsAlone(routes, p);
    TunnelAloneWins(routes, p, x);
  }
}
