/** How the Watcher exposes its API services: which routes it deletes and creates, with which TLS. */
module Routes {
  import opened Base
  import opened Conditions
  import opened Stages
  import opened Secrets
  import Resources
  import Endpoints

  /** What the operator puts into a route, before user overrides are merged. */
  datatype Termination = Plain | Edge | Reencrypt

  /** controller: the UID of the controlling owner. */
  datatype Route = Route(labelled: bool, to: string, controller: Option<string>, tls: Termination, host: string)

  type Table = map<string, Route>

  class Store {
    var routes: Table
  }

  datatype PatchReply = PatchOk | PatchError | PatchLater(after: Delay)

  datatype CertLookup = CertHas(keys: set<string>) | CertMissing | CertError

  datatype BundleReply = BundleOk | BundleError | BundleLater(after: Delay)

  /** Answers while one service's route is dealt with; host is the name the router gives a new route. */
  datatype RouteReplies = RouteReplies(
    stubborn: set<string>, defineOk: bool, lookupFails: bool, first: PatchReply, host: string,
    cert: CertLookup, bundle: BundleReply, redefineOk: bool, second: PatchReply)

  class EndpointDetail {
    const name: string
    const podTls: bool
    const podSecret: Option<string>
    const create: bool
    const routeTls: bool
    const routeSecret: Option<string>
    const overrideCert: bool
    var overrideURL: Option<string>
    var hostname: Option<string>
    var https: bool
    var url: string

    constructor (name: string, podTls: bool, podSecret: Option<string>, create: bool, routeTls: bool,
                 routeSecret: Option<string>, overrideCert: bool, overrideURL: Option<string>)
      ensures this.name == name && this.podTls == podTls && this.podSecret == podSecret
      ensures this.create == create && this.routeTls == routeTls && this.routeSecret == routeSecret
      ensures this.overrideCert == overrideCert && this.overrideURL == overrideURL
    {
      this.name, this.podTls, this.podSecret, this.create := name, podTls, podSecret, create;
      this.routeTls, this.routeSecret, this.overrideCert := routeTls, routeSecret, overrideCert;
      this.overrideURL, hostname, https, url := overrideURL, None, false, "";
    }
  }

  // Deleting routes

  /** Routes of this service that this Watcher controls, once the service asks for no ingress. */
  function Doomed(routes: Table, name: string, uid: string, ingress: Option<string>): set<string> {
    set n | n in routes && routes[n].labelled && routes[n].to == name && routes[n].controller == Some(uid)
            && ingress == Some("false")
  }

  lemma MinusOne(items: Table, gone: set<string>, n: string)
    ensures items - gone - {n} == items - (gone + {n})
  {}

  /** The labelled routes are visited in any order. On a failed deletion, some of the doomed routes
      are gone. */
  method DeleteRoutes(ed: EndpointDetail, store: Store, uid: string, ingress: Option<string>, stubborn: set<string>)
    returns (failed: bool, ghost gone: set<string>)
    modifies store`routes, ed`overrideURL
    ensures store.routes == old(store.routes) - gone
    ensures gone <= Doomed(old(store.routes), ed.name, uid, ingress) - stubborn
    ensures failed <==> Doomed(old(store.routes), ed.name, uid, ingress) * stubborn != {}
    ensures !failed ==> gone == Doomed(old(store.routes), ed.name, uid, ingress)
  {
    var items := store.routes;
    var todo := set n | n in items && items[n].labelled;
    gone := {};
    ghost var doomed := Doomed(items, ed.name, uid, ingress);
    while todo != {}
      invariant forall n :: n in todo ==> n in items && items[n].labelled
      invariant gone <= doomed - stubborn
      invariant forall n :: n in doomed ==> n in gone || n in todo
      invariant store.routes == items - gone
      decreases |todo|
    {
      var n :| n in todo;
      if ingress == Some("false") && items[n].to == ed.name && items[n].controller == Some(uid) {
        assert n in doomed;
        if n in stubborn {
          assert n in doomed * stubborn;
          return true, gone;
        }
        store.routes := store.routes - {n};
        MinusOne(items, gone, n);
        gone := gone + {n};
        if ed.overrideURL.Some? {
          ed.overrideURL := None;
        }
      }
      todo := todo - {n};
    }
    return false, gone;
  }

  // Creating a route

  const CERT_KEYS := ["tls.crt", "tls.key", "ca.crt"]

  /** The TLS of a created route, from the pod-level and the route-level switch. */
  function Matrix(podTls: bool, routeTls: bool): Termination {
    if !routeTls then Plain else if podTls then Reencrypt else Edge
  }

  /** Create-or-patch of a route: an existing one keeps its host name. */
  function Written(routes: Table, name: string, uid: string, tls: Termination, host: string): Route {
    Route(true, name, Some(uid), tls, if name in routes then routes[name].host else host)
  }

  /** The pod's certificate is configured somewhere, so the router has to encrypt again. */
  predicate Reencrypts(ed: EndpointDetail) {
    ed.podTls && (ed.podSecret.Some? || ed.overrideCert)
  }

  predicate CertGood(r: RouteReplies) {
    r.cert.CertHas? && forall key | key in CERT_KEYS :: key in r.cert.keys
  }

  /** A route with TLS that does not exist yet is first created plain, to learn its host name. */
  predicate FirstWrite(name: string, routeTls: bool, routes: Table) {
    !routeTls || name !in routes
  }

  /** Everything that has to go well for the route to be written as meant; again: it is reencrypt. */
  predicate CreateOk(name: string, routeTls: bool, withSecret: bool, again: bool, routes: Table, r: RouteReplies) {
    && r.defineOk
    && (if FirstWrite(name, routeTls, routes) then (routeTls ==> !r.lookupFails) && r.first.PatchOk? else !r.lookupFails)
    && (routeTls ==>
          && (withSecret ==> CertGood(r)) && (again ==> r.bundle.BundleOk?)
          && r.redefineOk && r.second.PatchOk?)
  }

  predicate CreateGood(ed: EndpointDetail, routes: Table, r: RouteReplies) {
    CreateOk(ed.name, ed.routeTls, ed.routeSecret.Some?, Reencrypts(ed), routes, r)
  }

  method CheckCert(r: RouteReplies) returns (ok: bool)
    ensures ok == CertGood(r)
  {
    if !r.cert.CertHas? {
      return false;
    }
    for i := 0 to |CERT_KEYS|
      invariant forall key | key in CERT_KEYS[..i] :: key in r.cert.keys
    {
      if CERT_KEYS[i] !in r.cert.keys {
        return false;
      }
    }
    assert CERT_KEYS[..|CERT_KEYS|] == CERT_KEYS;
    return true;
  }

  /** The second write of a route with TLS: its certificate must have all its keys, and it is reencrypt
      when the pod's certificate is configured. */
  method Encrypt(ed: EndpointDetail, store: Store, uid: string, r: RouteReplies) returns (exit: Exit)
    modifies store`routes
    ensures Silent(exit) <==>
              (ed.routeSecret.Some? ==> CertGood(r)) && (Reencrypts(ed) ==> r.bundle.BundleOk?) && r.redefineOk && r.second.PatchOk?
    ensures Silent(exit) ==>
              store.routes == old(store.routes)[ed.name :=
                Written(old(store.routes), ed.name, uid, if Reencrypts(ed) then Reencrypt else Edge, r.host)]
    ensures !Silent(exit) ==> store.routes == old(store.routes)
    ensures Silent(exit) && ed.routeSecret.Some? ==> r.cert.CertHas? && {"tls.crt", "tls.key", "ca.crt"} <= r.cert.keys
    ensures exit.failed ==> exit.requeueAfter == 0
    ensures exit.requeueAfter > 0 ==>
              (r.bundle.BundleLater? && exit.requeueAfter == r.bundle.after)
              || (r.second.PatchLater? && exit.requeueAfter == r.second.after)
  {
    if ed.routeSecret.Some? {
      var ok := CheckCert(r);
      if !ok {
        return Exit(0, true);
      }
      assert CERT_KEYS[0] == "tls.crt" && CERT_KEYS[1] == "tls.key" && CERT_KEYS[2] == "ca.crt";
    }
    var termination := Edge;
    if ed.podTls && (ed.podSecret.Some? || ed.overrideCert) {
      if r.bundle.BundleError? {
        return Exit(0, true);
      } else if r.bundle.BundleLater? {
        return Exit(r.bundle.after, false);
      }
      termination := Reencrypt;
    }
    if !r.redefineOk || r.second.PatchError? {
      return Exit(0, true);
    } else if r.second.PatchLater? {
      return Exit(r.second.after, false);
    }
    store.routes := store.routes[ed.name := Written(store.routes, ed.name, uid, termination, r.host)];
    return Exit(0, false);
  }

  /** Writes exactly one route. Success means the TLS of the matrix, the host name and the scheme;
      a failure leaves at most a plain route behind, and only where TLS was on and no route was. */
  method CreateRoute(ed: EndpointDetail, store: Store, uid: string, r: RouteReplies) returns (exit: Exit)
    modifies store`routes, ed`hostname, ed`https, ed`url
    ensures Silent(exit) <==> CreateGood(ed, old(store.routes), r)
    ensures Silent(exit) && ed.routeTls && ed.routeSecret.Some? ==>
              r.cert.CertHas? && {"tls.crt", "tls.key", "ca.crt"} <= r.cert.keys
    ensures exit.failed ==> exit.requeueAfter == 0
    ensures r.defineOk && (!ed.routeTls || (!r.lookupFails && ed.name !in old(store.routes))) && r.first.PatchLater? ==>
              exit == Exit(r.first.after, false)
    ensures exit.requeueAfter > 0 ==>
              (r.first.PatchLater? && exit.requeueAfter == r.first.after)
              || (ed.routeTls && r.bundle.BundleLater? && exit.requeueAfter == r.bundle.after)
              || (ed.routeTls && r.second.PatchLater? && exit.requeueAfter == r.second.after)
    ensures Silent(exit) ==>
      var route := Written(old(store.routes), ed.name, uid, Matrix(Reencrypts(ed), ed.routeTls), r.host);
      && store.routes == old(store.routes)[ed.name := route]
      && ed.hostname == Some(route.host) && ed.https == ed.routeTls
      && ed.url == (if ed.https then "https" else "http") + "://" + route.host
    ensures !Silent(exit) ==>
      || store.routes == old(store.routes)
      || (ed.routeTls && ed.name !in old(store.routes) && r.first.PatchOk? &&
          store.routes == old(store.routes)[ed.name := Written(old(store.routes), ed.name, uid, Plain, r.host)])
  {
    if !r.defineOk {
      return Exit(0, true);
    }
    var found := ed.name in store.routes;
    if !ed.routeTls || (!r.lookupFails && !found) {
      if r.first.PatchError? {
        return Exit(0, true);
      } else if r.first.PatchLater? {
        return Exit(r.first.after, false);
      }
      var plain := Written(store.routes, ed.name, uid, Plain, r.host);
      store.routes := store.routes[ed.name := plain];
      ed.hostname := Some(plain.host);
    } else if r.lookupFails {
      return Exit(0, true);
    } else {
      ed.hostname := Some(store.routes[ed.name].host);
    }
    if ed.routeTls {
      exit := Encrypt(ed, store, uid, r);
      if !Silent(exit) {
        return exit;
      }
      ed.https := true;
    } else {
      ed.https := false;
    }
    ed.url := (if ed.https then "https" else "http") + "://" + ed.hostname.value;
    return Exit(0, false);
  }

  // One service

  function ServedBy(ed: EndpointDetail, left: Table, uid: string, host: string): Table {
    if ed.create then left[ed.name := Written(left, ed.name, uid, Matrix(Reencrypts(ed), ed.routeTls), host)] else left
  }

  /** The host name is set, and the URL's scheme follows the route's TLS. */
  predicate AddressOk(ed: EndpointDetail)
    reads ed
  {
    && ed.hostname.Some? && ed.https == ed.routeTls
    && ed.url == (if ed.routeTls then "https" else "http") + "://" + ed.hostname.value
  }

  method EnsureRoute(ed: EndpointDetail, store: Store, uid: string, ingress: Option<string>, listOk: bool, r: RouteReplies)
    returns (exit: Exit)
    modifies store`routes, ed`overrideURL, ed`hostname, ed`https, ed`url
    ensures var doomed := Doomed(old(store.routes), ed.name, uid, ingress);
      var left := old(store.routes) - doomed;
      && (Silent(exit) <==> listOk && doomed * r.stubborn == {} && (ed.create ==> CreateGood(ed, left, r)))
      && (Silent(exit) ==> store.routes == ServedBy(ed, left, uid, r.host))
      && (Silent(exit) && ed.create ==> AddressOk(ed))
      && (forall n :: n in left ==> n in store.routes)
      && (forall n :: n in left && n != ed.name ==> store.routes[n] == left[n])
      && (ed.name in left ==> store.routes[ed.name] == left[ed.name] || (ed.create && store.routes[ed.name].to == ed.name))
      && (forall n :: n in store.routes ==> n in old(store.routes) || (ed.create && n == ed.name))
  {
    if !listOk {
      return Exit(0, true);
    }
    var failed, gone := DeleteRoutes(ed, store, uid, ingress, r.stubborn);
    if failed {
      return Exit(0, true);
    }
    if ed.create {
      exit := CreateRoute(ed, store, uid, r);
      return;
    }
    return Exit(0, false);
  }

  // All services

  /** A service of the API as the Watcher finds it; ingress is the annotation that the API controller
      writes. */
  datatype Svc = Svc(name: string, public: bool, ingress: Option<string>, clusterIP: bool)

  datatype ExposeSpec = ExposeSpec(podSecret: Option<string>, ingressSecret: Option<string>, overrideCert: bool,
                                   overrideURL: Option<string>)

  datatype Validation = Valid | NotFound | Invalid

  datatype ExposeReplies = ExposeReplies(
    listOk: bool, svcs: seq<Svc>, ingressCert: Validation, podCert: Validation,
    routesOk: string -> bool, route: string -> RouteReplies)

  predicate Named(s: Option<string>) {
    s.Some? && s.value != ""
  }

  predicate Creates(s: Svc) {
    s.public && s.ingress == Some("true") && s.clusterIP
  }

  function RouteStep(routes: Table, s: Svc, spec: ExposeSpec, uid: string, host: string): Table {
    if !s.public then routes
    else
      var left := routes - Doomed(routes, s.name, uid, s.ingress);
      if Creates(s)
      then left[s.name := Written(left, s.name, uid, Matrix(Named(spec.podSecret), Named(spec.ingressSecret)), host)]
      else left
  }

  function Exposed(routes: Table, svcs: seq<Svc>, spec: ExposeSpec, uid: string, route: string -> RouteReplies): Table {
    if svcs == [] then routes
    else
      var s := svcs[|svcs| - 1];
      RouteStep(Exposed(routes, svcs[..|svcs| - 1], spec, uid, route), s, spec, uid, route(s.name).host)
  }

  /** The routes that this Watcher does not control are still there; only one that bears the name of
      a visited service may have been turned into that service's route. */
  ghost predicate ForeignKept(before: Table, after: Table, uid: string, svcs: seq<Svc>) {
    forall n :: n in before && before[n].controller != Some(uid) ==>
      n in after && (after[n] == before[n] || (after[n].to == n && exists s :: s in svcs && s.name == n))
  }

  /** What dealing with one service can have changed, whatever came of it. */
  ghost predicate OneServed(now: Table, after: Table, uid: string, s: Svc) {
    var left := now - Doomed(now, s.name, uid, s.ingress);
    && (forall n :: n in left ==> n in after)
    && (forall n :: n in left && n != s.name ==> after[n] == left[n])
    && (s.name in left ==> after[s.name] == left[s.name] || (Creates(s) && after[s.name].to == s.name))
    && (forall n :: n in after ==> n in now || (Creates(s) && n == s.name))
  }

  lemma ForeignStep(before: Table, now: Table, after: Table, uid: string, svcs: seq<Svc>, s: Svc)
    requires ForeignKept(before, now, uid, svcs) && forall t | t in svcs :: t.name != s.name
    requires OneServed(now, after, uid, s)
    ensures ForeignKept(before, after, uid, svcs + [s])
  {
    forall n | n in before && before[n].controller != Some(uid)
      ensures n in after && (after[n] == before[n] || (after[n].to == n && exists t :: t in svcs + [s] && t.name == n))
    {
      assert n !in Doomed(now, s.name, uid, s.ingress);
      assert s in svcs + [s];
      if after[n] != before[n] && n != s.name {
        var t :| t in svcs && t.name == n;
        assert t in svcs + [s];
      }
    }
  }

  /** A route differs from what it was only if a service accounts for it: one that asks for a route of
      that name, or one that declines while the Watcher controls a labelled route to it. */
  ghost predicate Accounted(before: Table, after: Table, uid: string, svcs: seq<Svc>) {
    forall n :: (n in before) != (n in after) || (n in before && after[n] != before[n]) ==>
      exists s :: s in svcs && s.public && Accounts(before, uid, s, n)
  }

  predicate Accounts(before: Table, uid: string, s: Svc, n: string) {
    || (s.name == n && Creates(s))
    || n in Doomed(before, s.name, uid, s.ingress)
  }

  lemma AccountedStep(before: Table, now: Table, after: Table, uid: string, svcs: seq<Svc>, s: Svc)
    requires Accounted(before, now, uid, svcs) && s.public && OneServed(now, after, uid, s)
    ensures Accounted(before, after, uid, svcs + [s])
  {
    forall n | (n in before) != (n in after) || (n in before && after[n] != before[n])
      ensures exists t :: t in svcs + [s] && t.public && Accounts(before, uid, t, n)
    {
      if (n in before) != (n in now) || (n in before && now[n] != before[n]) {
        var t :| t in svcs && t.public && Accounts(before, uid, t, n);
        assert t in svcs + [s];
      } else {
        assert s in svcs + [s] && Accounts(before, uid, s, n);
      }
    }
  }

  method CheckCerts(spec: ExposeSpec, r: ExposeReplies) returns (stop: bool, exit: Exit)
    ensures stop <==> (Named(spec.ingressSecret) && !r.ingressCert.Valid?) || (Named(spec.podSecret) && !r.podCert.Valid?)
    ensures stop ==> exit == Exit(10, false) || exit == Exit(0, true)
    ensures stop && Named(spec.ingressSecret) && !r.ingressCert.Valid? ==>
              (exit == Exit(10, false) <==> r.ingressCert.NotFound?)
    ensures stop && (Named(spec.ingressSecret) ==> r.ingressCert.Valid?) ==>
              (exit == Exit(10, false) <==> r.podCert.NotFound?)
  {
    if Named(spec.ingressSecret) {
      if r.ingressCert.NotFound? {
        return true, Exit(10, false);
      } else if r.ingressCert.Invalid? {
        return true, Exit(0, true);
      }
    }
    if Named(spec.podSecret) {
      if r.podCert.NotFound? {
        return true, Exit(10, false);
      } else if r.podCert.Invalid? {
        return true, Exit(0, true);
      }
    }
    return false, Exit(0, false);
  }

  predicate Distinct(svcs: seq<Svc>) {
    forall i, j :: 0 <= i < j < |svcs| ==> svcs[i].name != svcs[j].name
  }

  /** One service's turn goes well. */
  predicate Smooth(routes: Table, s: Svc, spec: ExposeSpec, uid: string, r: ExposeReplies) {
    s.public ==>
      && (Named(spec.ingressSecret) ==> r.ingressCert.Valid?) && (Named(spec.podSecret) ==> r.podCert.Valid?)
      && r.routesOk(s.name)
      && var doomed, pod := Doomed(routes, s.name, uid, s.ingress), Named(spec.podSecret);
        && doomed * r.route(s.name).stubborn == {}
        && (Creates(s) ==>
              CreateOk(s.name, Named(spec.ingressSecret), Named(spec.ingressSecret), pod, routes - doomed, r.route(s.name)))
  }

  predicate AllSmooth(routes: Table, svcs: seq<Svc>, spec: ExposeSpec, uid: string, r: ExposeReplies) {
    if svcs == [] then true
    else
      var us := svcs[..|svcs| - 1];
      AllSmooth(routes, us, spec, uid, r) && Smooth(Exposed(routes, us, spec, uid, r.route), svcs[|svcs| - 1], spec, uid, r)
  }

  /** Every answer that is asked for a service is the good one. */
  predicate GoodAnswers(a: RouteReplies) {
    && a.stubborn == {} && a.defineOk && !a.lookupFails && a.first == PatchOk && a.redefineOk && a.second == PatchOk
    && a.bundle == BundleOk && a.cert == CertHas({"tls.crt", "tls.key", "ca.crt"})
  }

  /** Good certificates and good answers are enough, whatever routes there are. */
  lemma {:induction false} GoodIsSmooth(routes: Table, svcs: seq<Svc>, spec: ExposeSpec, uid: string, r: ExposeReplies)
    requires r.ingressCert == Valid && r.podCert == Valid
    requires forall s | s in svcs :: r.routesOk(s.name) && GoodAnswers(r.route(s.name))
    ensures AllSmooth(routes, svcs, spec, uid, r)
  {
    if svcs != [] {
      GoodIsSmooth(routes, svcs[..|svcs| - 1], spec, uid, r);
    }
  }

  /** And nothing less: what a smooth turn says of every public service that is listed. */
  lemma {:induction false} SmoothMeans(routes: Table, svcs: seq<Svc>, spec: ExposeSpec, uid: string, r: ExposeReplies, s: Svc)
    requires AllSmooth(routes, svcs, spec, uid, r) && s in svcs && s.public
    ensures r.routesOk(s.name)
    ensures (Named(spec.ingressSecret) ==> r.ingressCert.Valid?) && (Named(spec.podSecret) ==> r.podCert.Valid?)
    ensures s.ingress == Some("true") && s.clusterIP ==>
      var a := r.route(s.name);
      && a.defineOk
      && (Named(spec.ingressSecret) ==>
            a.redefineOk && a.second == PatchOk && a.cert.CertHas? && {"tls.crt", "tls.key", "ca.crt"} <= a.cert.keys)
      && (!Named(spec.ingressSecret) ==> a.first == PatchOk)
      && (Named(spec.ingressSecret) && Named(spec.podSecret) ==> a.bundle == BundleOk)
  {
    var us, t := svcs[..|svcs| - 1], svcs[|svcs| - 1];
    if s in us {
      SmoothMeans(routes, us, spec, uid, r, s);
    } else {
      assert s == t;
      assert CERT_KEYS[0] == "tls.crt" && CERT_KEYS[1] == "tls.key" && CERT_KEYS[2] == "ca.crt";
    }
  }

  lemma {:induction false} RoughStops(routes: Table, us: seq<Svc>, svcs: seq<Svc>, spec: ExposeSpec, uid: string, r: ExposeReplies)
    requires us <= svcs && !AllSmooth(routes, us, spec, uid, r)
    ensures !AllSmooth(routes, svcs, spec, uid, r)
    decreases |svcs|
  {
    if us != svcs {
      assert us <= svcs[..|svcs| - 1];
      RoughStops(routes, us, svcs[..|svcs| - 1], spec, uid, r);
    }
  }

  /** One public service. */
  method ExposeService(store: Store, uid: string, spec: ExposeSpec, r: ExposeReplies, svc: Svc) returns (exit: Exit)
    requires svc.public
    modifies store`routes
    ensures Silent(exit) <==> Smooth(old(store.routes), svc, spec, uid, r)
    ensures Silent(exit) ==> store.routes == RouteStep(old(store.routes), svc, spec, uid, r.route(svc.name).host)
    ensures OneServed(old(store.routes), store.routes, uid, svc)
  {
    var stop;
    stop, exit := CheckCerts(spec, r);
    if stop {
      return exit;
    }
    var ed := new EndpointDetail(
      svc.name, Named(spec.podSecret), if Named(spec.podSecret) then spec.podSecret else None,
      svc.ingress == Some("true") && svc.clusterIP, Named(spec.ingressSecret),
      if Named(spec.ingressSecret) then spec.ingressSecret else None, spec.overrideCert, spec.overrideURL);
    exit := EnsureRoute(ed, store, uid, svc.ingress, r.routesOk(svc.name), r.route(svc.name));
  }

  /** The loop over the services. */
  method ExposeServices(store: Store, uid: string, spec: ExposeSpec, r: ExposeReplies) returns (exit: Exit)
    requires Distinct(r.svcs)
    modifies store`routes
    ensures Silent(exit) <==> AllSmooth(old(store.routes), r.svcs, spec, uid, r)
    ensures Silent(exit) ==> store.routes == Exposed(old(store.routes), r.svcs, spec, uid, r.route)
    ensures ForeignKept(old(store.routes), store.routes, uid, r.svcs)
    ensures Accounted(old(store.routes), store.routes, uid, r.svcs)
  {
    for i := 0 to |r.svcs|
      invariant store.routes == Exposed(old(store.routes), r.svcs[..i], spec, uid, r.route)
      invariant AllSmooth(old(store.routes), r.svcs[..i], spec, uid, r)
      invariant ForeignKept(old(store.routes), store.routes, uid, r.svcs[..i])
      invariant Accounted(old(store.routes), store.routes, uid, r.svcs[..i])
    {
      var svc := r.svcs[i];
      assert r.svcs[..i + 1] == r.svcs[..i] + [svc];
      ghost var now := store.routes;
      if svc.public {
        exit := ExposeService(store, uid, spec, r, svc);
        ForeignStep(old(store.routes), now, store.routes, uid, r.svcs[..i], svc);
        AccountedStep(old(store.routes), now, store.routes, uid, r.svcs[..i], svc);
        if !Silent(exit) {
          Fewer(old(store.routes), store.routes, uid, r.svcs[..i + 1], r.svcs);
          RoughStops(old(store.routes), r.svcs[..i + 1], r.svcs, spec, uid, r);
          return exit;
        }
      } else {
        Fewer(old(store.routes), store.routes, uid, r.svcs[..i], r.svcs[..i + 1]);
      }
    }
    assert r.svcs[..|r.svcs|] == r.svcs;
    return Exit(0, false);
  }

  lemma Fewer(before: Table, after: Table, uid: string, us: seq<Svc>, svcs: seq<Svc>)
    requires us <= svcs
    ensures ForeignKept(before, after, uid, us) ==> ForeignKept(before, after, uid, svcs)
    ensures Accounted(before, after, uid, us) ==> Accounted(before, after, uid, svcs)
  {
    assert forall s :: s in us ==> s in svcs;
  }

  /** Pod-level TLS without ingress TLS is rejected before any route is touched. A silent exit means
      every service has been exposed as the specification says, and a name without a route has got one
      exactly from a public cluster-internal service of that name that asks for it. Whatever the exit, a
      route is new, changed or gone only on account of a public service that asks for it or declines it,
      and no route that this Watcher does not control is deleted. */
  method ExposeEndpoints(instance: Instance, store: Store, uid: string, spec: ExposeSpec, r: ExposeReplies)
    returns (exit: Exit)
    requires forall i, j :: 0 <= i < j < |r.svcs| ==> r.svcs[i].name != r.svcs[j].name
    modifies instance`conds, store`routes
    ensures !r.listOk || (Named(spec.podSecret) && !Named(spec.ingressSecret)) ==>
              exit == Exit(0, true) && store.routes == old(store.routes)
    ensures r.listOk && Named(spec.podSecret) && !Named(spec.ingressSecret) ==>
              instance.conds == old(instance.conds)[ExposeServiceReady := False(Warning)]
    ensures r.listOk && (Named(spec.podSecret) ==> Named(spec.ingressSecret)) ==> instance.conds == old(instance.conds)
    ensures Silent(exit) <==>
              && r.listOk && (Named(spec.podSecret) ==> Named(spec.ingressSecret))
              && AllSmooth(old(store.routes), r.svcs, spec, uid, r)
    ensures Silent(exit) ==> store.routes == Exposed(old(store.routes), r.svcs, spec, uid, r.route)
    ensures Silent(exit) && Named(spec.ingressSecret) ==>
              forall s | s in r.svcs && s.public && s.ingress == Some("true") && s.clusterIP ::
                var cert := r.route(s.name).cert;
                r.ingressCert.Valid? && cert.CertHas? && {"tls.crt", "tls.key", "ca.crt"} <= cert.keys
    ensures ForeignKept(old(store.routes), store.routes, uid, r.svcs)
    ensures Silent(exit) ==> forall n | n !in old(store.routes) ::
              n in store.routes <==>
              exists s | s in r.svcs :: s.public && s.ingress == Some("true") && s.clusterIP && s.name == n
    ensures forall n | n in store.routes && n !in old(store.routes) ::
              exists s | s in r.svcs :: s.public && s.ingress == Some("true") && s.clusterIP && s.name == n
    ensures forall n | n in old(store.routes) && (n in store.routes ==> store.routes[n] != old(store.routes)[n]) ::
              var was := old(store.routes)[n];
              exists s | s in r.svcs :: s.public &&
                (|| (s.ingress == Some("true") && s.clusterIP && s.name == n)
                 || (s.ingress == Some("false") && was.labelled && was.to == s.name && was.controller == Some(uid)))
  {
    if !r.listOk {
      return Exit(0, true);
    }
    if Named(spec.podSecret) && !Named(spec.ingressSecret) {
      instance.Set(ExposeServiceReady, False(Warning));
      return Exit(0, true);
    }
    ghost var before := store.routes;
    exit := ExposeServices(store, uid, spec, r);
    forall s | Silent(exit) && s in r.svcs && s.public
      ensures Named(spec.ingressSecret) && s.ingress == Some("true") && s.clusterIP ==>
        var cert := r.route(s.name).cert;
        r.ingressCert.Valid? && cert.CertHas? && {"tls.crt", "tls.key", "ca.crt"} <= cert.keys
    {
      SmoothMeans(before, r.svcs, spec, uid, r, s);
    }
    forall n | n !in before && Silent(exit)
      ensures n in store.routes <==> exists s | s in r.svcs :: s.public && s.ingress == Some("true") && s.clusterIP && s.name == n
    {
      CreatesExactly(before, r.svcs, spec, uid, r.route, n);
    }
  }

  // What a silent exit means

  /** What the API controller leaves to the Watcher: two services, the annotation of each following from
      its type. */
  function Services(spec: Resources.SubSpec): seq<Svc> {
    [ServiceAs(spec, Resources.Public, "watcher-public"), ServiceAs(spec, Resources.Internal, "watcher-internal")]
  }

  function ServiceAs(spec: Resources.SubSpec, e: Resources.Endpoint, name: string): Svc {
    Svc(name, e.Public?, Some(if Endpoints.ServiceFor(spec, e).ingress then "true" else "false"),
        Endpoints.OverrideOf(spec, e).kind.ClusterIP?)
  }

  /** Across the two controllers: once the API's services are exposed, the public one has a route exactly
      when no override makes it anything but cluster-internal, and nothing else has a new one. */
  lemma PublicRouteIff(api: Resources.SubSpec, routes: Table, spec: ExposeSpec, uid: string,
                       route: string -> RouteReplies, n: string)
    requires n !in routes
    ensures n in Exposed(routes, Services(api), spec, uid, route) <==>
      n == "watcher-public" && (Resources.Public in api.overrides ==> api.overrides[Resources.Public].kind == Resources.ClusterIP)
  {
    var svcs := Services(api);
    assert svcs[0].name == "watcher-public" && svcs[1].name == "watcher-internal" && |svcs[0].name| < |svcs[1].name|;
    CreatesExactly(routes, svcs, spec, uid, route, n);
  }

  predicate Served(out: Table, s: Svc, spec: ExposeSpec, uid: string) {
    && s.name in out && out[s.name].to == s.name && out[s.name].labelled && out[s.name].controller == Some(uid)
    && out[s.name].tls == Matrix(Named(spec.podSecret), Named(spec.ingressSecret))
  }

  /** A later step for another service does not disturb what one service got. */
  lemma StepKeeps(routes: Table, t: Svc, spec: ExposeSpec, uid: string, host: string, s: Svc)
    requires t.name != s.name
    ensures var out := RouteStep(routes, t, spec, uid, host);
      && (Served(routes, s, spec, uid) ==> Served(out, s, spec, uid))
      && (Doomed(routes, s.name, uid, s.ingress) == {} ==> Doomed(out, s.name, uid, s.ingress) == {})
  {
    var out := RouteStep(routes, t, spec, uid, host);
    forall n | n in Doomed(out, s.name, uid, s.ingress) ensures n in Doomed(routes, s.name, uid, s.ingress) {}
  }

  lemma StepServes(routes: Table, s: Svc, spec: ExposeSpec, uid: string, host: string)
    requires s.public
    ensures var out := RouteStep(routes, s, spec, uid, host);
      && (Creates(s) ==> Served(out, s, spec, uid))
      && Doomed(out, s.name, uid, s.ingress) == {}
  {
    CreatesOrDoomsNone(routes, s, uid);
  }

  lemma CreatesOrDoomsNone(routes: Table, s: Svc, uid: string)
    ensures Doomed(routes - Doomed(routes, s.name, uid, s.ingress), s.name, uid, s.ingress) == {}
    ensures Creates(s) ==> forall out :: Doomed(out, s.name, uid, s.ingress) == {}
  {}

  lemma MatrixMeans(spec: ExposeSpec)
    requires Named(spec.podSecret) ==> Named(spec.ingressSecret)
    ensures var t := Matrix(Named(spec.podSecret), Named(spec.ingressSecret));
      && (t == Reencrypt <==> Named(spec.podSecret))
      && (t == Edge <==> Named(spec.ingressSecret) && !Named(spec.podSecret))
      && (t == Plain <==> !Named(spec.ingressSecret) && !Named(spec.podSecret))
  {}

  /** Once all services are exposed: a public cluster-internal service that asks for an ingress has its
      route; one that declines has none that this Watcher controls. With a spec that is not rejected, the
      route is reencrypt exactly when pod-level TLS is on, edge exactly when only ingress TLS is on, and
      plain exactly when neither is. */
  lemma ExposedMeans(routes: Table, svcs: seq<Svc>, spec: ExposeSpec, uid: string,
                                        route: string -> RouteReplies, s: Svc)
    requires Distinct(svcs) && s in svcs && s.public
    ensures s.ingress == Some("true") && s.clusterIP ==>
      var out := Exposed(routes, svcs, spec, uid, route);
      && s.name in out && out[s.name].to == s.name && out[s.name].labelled && out[s.name].controller == Some(uid)
      && ((Named(spec.podSecret) ==> Named(spec.ingressSecret)) ==>
            && (out[s.name].tls == Reencrypt <==> Named(spec.podSecret))
            && (out[s.name].tls == Edge <==> Named(spec.ingressSecret) && !Named(spec.podSecret))
            && (out[s.name].tls == Plain <==> !Named(spec.ingressSecret) && !Named(spec.podSecret)))
    ensures s.ingress == Some("false") ==>
      var out := Exposed(routes, svcs, spec, uid, route);
      forall n | n in out && out[n].labelled && out[n].to == s.name :: out[n].controller != Some(uid)
  {
    Serves(routes, svcs, spec, uid, route, s);
    if Named(spec.podSecret) ==> Named(spec.ingressSecret) {
      MatrixMeans(spec);
    }
    var out := Exposed(routes, svcs, spec, uid, route);
    assert forall n | n in out :: n !in Doomed(out, s.name, uid, s.ingress);
  }

  lemma {:induction false} Serves(routes: Table, svcs: seq<Svc>, spec: ExposeSpec, uid: string,
                                  route: string -> RouteReplies, s: Svc)
    requires Distinct(svcs) && s in svcs && s.public
    ensures var out := Exposed(routes, svcs, spec, uid, route);
      && (Creates(s) ==> Served(out, s, spec, uid))
      && Doomed(out, s.name, uid, s.ingress) == {}
  {
    var us, t := svcs[..|svcs| - 1], svcs[|svcs| - 1];
    var before := Exposed(routes, us, spec, uid, route);
    if s == t {
      StepServes(before, s, spec, uid, route(s.name).host);
    } else {
      var i :| 0 <= i < |svcs| && svcs[i] == s;
      assert us[i] == s;
      Serves(routes, us, spec, uid, route, s);
      StepKeeps(before, t, spec, uid, route(t.name).host, s);
    }
  }

  /** Some declining service takes n down. */
  ghost predicate DoomedAny(routes: Table, svcs: seq<Svc>, uid: string, n: string) {
    exists s :: s in svcs && s.public && n in Doomed(routes, s.name, uid, s.ingress)
  }

  /** Some creating service bears the name n. */
  ghost predicate CreatedAny(svcs: seq<Svc>, n: string) {
    exists s :: s in svcs && Creates(s) && s.name == n
  }

  lemma AnyOfMore(routes: Table, us: seq<Svc>, t: Svc, uid: string, n: string)
    ensures DoomedAny(routes, us + [t], uid, n) <==>
              DoomedAny(routes, us, uid, n) || (t.public && n in Doomed(routes, t.name, uid, t.ingress))
    ensures CreatedAny(us + [t], n) <==> CreatedAny(us, n) || (Creates(t) && t.name == n)
  {
    assert forall s :: s in us + [t] <==> s in us || s == t;
  }

  /** Exactly the labelled routes of a declining service that this Watcher controls are deleted, save
      one whose name a creating service takes over, which keeps its host name if it is not declined as
      well; every other route is as it was. */
  lemma DeletesExactly(routes: Table, svcs: seq<Svc>, spec: ExposeSpec, uid: string, route: string -> RouteReplies, n: string)
    requires Distinct(svcs) && n in routes
    ensures var out := Exposed(routes, svcs, spec, uid, route);
      var declined := exists s | s in svcs ::
        s.public && s.ingress == Some("false") && routes[n].labelled && routes[n].to == s.name && routes[n].controller == Some(uid);
      var asked := exists s | s in svcs :: s.public && s.ingress == Some("true") && s.clusterIP && s.name == n;
      && (n in out <==> !declined || asked)
      && (asked ==> out[n].to == n && (!declined ==> out[n].host == routes[n].host))
      && (!declined && !asked ==> out[n] == routes[n])
  {
    Gone(routes, svcs, spec, uid, route, n);
    assert DoomedAny(routes, svcs, uid, n) <==> exists s | s in svcs ::
        s.public && s.ingress == Some("false") && routes[n].labelled && routes[n].to == s.name && routes[n].controller == Some(uid);
    assert CreatedAny(svcs, n) <==> exists s | s in svcs :: s.public && s.ingress == Some("true") && s.clusterIP && s.name == n;
  }

  lemma {:induction false} Gone(routes: Table, svcs: seq<Svc>, spec: ExposeSpec, uid: string,
                                route: string -> RouteReplies, n: string)
    requires Distinct(svcs) && n in routes
    ensures var out := Exposed(routes, svcs, spec, uid, route);
      && (n !in out <==> DoomedAny(routes, svcs, uid, n) && !CreatedAny(svcs, n))
      && (n in out ==> if CreatedAny(svcs, n) then out[n].to == n else out[n] == routes[n])
      && (n in out && !DoomedAny(routes, svcs, uid, n) ==> out[n].host == routes[n].host)
  {
    if svcs != [] {
      var us, t := svcs[..|svcs| - 1], svcs[|svcs| - 1];
      Gone(routes, us, spec, uid, route, n);
      assert svcs == us + [t];
      AnyOfMore(routes, us, t, uid, n);
      assert forall s :: s in us ==> s.name != t.name;
      assert CreatedAny(us, n) ==> n != t.name;
    }
  }

  /** A name without a route gets one exactly from a public cluster-internal service of that name that
      asks for an ingress, with the host name that the router gives it. */
  lemma {:induction false} CreatesExactly(routes: Table, svcs: seq<Svc>, spec: ExposeSpec, uid: string,
                                          route: string -> RouteReplies, n: string)
    requires Distinct(svcs) && n !in routes
    ensures var out := Exposed(routes, svcs, spec, uid, route);
      && (n in out <==> exists s | s in svcs :: s.public && s.ingress == Some("true") && s.clusterIP && s.name == n)
      && (n in out ==> out[n].to == n && out[n].host == route(n).host)
  {
    if svcs != [] {
      var us, t := svcs[..|svcs| - 1], svcs[|svcs| - 1];
      CreatesExactly(routes, us, spec, uid, route, n);
      assert svcs == us + [t];
      assert forall s :: s in svcs <==> s in us || s == t;
      assert forall s :: s in us ==> s.name != t.name;
    }
  }
}
