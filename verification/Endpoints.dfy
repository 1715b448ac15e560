/** The API's two endpoints: virtual hosts in the rendered config, services, and the URLs that are
    published for them. */
module Endpoints {
  import opened Base
  import opened Conditions
  import opened Resources
  import opened Stages
  import opened Secrets

  function NameOf(e: Endpoint): string {
    match e
    case Public => "public"
    case Internal => "internal"
  }

  // Virtual hosts

  datatype VHost = VHost(serverName: string, certificate: Option<string>, key: Option<string>)

  const CERTS_DIR := "/etc/pki/tls/certs/"
  const KEYS_DIR := "/etc/pki/tls/private/"

  function CertPath(e: Endpoint): string {
    CERTS_DIR + NameOf(e) + ".crt"
  }

  function KeyPath(e: Endpoint): string {
    KEYS_DIR + NameOf(e) + ".key"
  }

  function VHostFor(tls: Tls, namespace: string, e: Endpoint): VHost {
    VHost("watcher-" + NameOf(e) + "." + namespace + ".svc",
          if tls.Enabled(e) then Some(CertPath(e)) else None,
          if tls.Enabled(e) then Some(KeyPath(e)) else None)
  }

  /** The virtual hosts handed to the config template: both endpoints, each with its own name and,
      exactly when its TLS is on, its own certificate and key. */
  method VHosts(tls: Tls, namespace: string) returns (vhosts: map<Endpoint, VHost>)
    ensures vhosts == map e: Endpoint :: VHostFor(tls, namespace, e)
    ensures vhosts[Public].serverName == "watcher-" + "public" + "." + namespace + ".svc"
    ensures vhosts[Internal].serverName == "watcher-" + "internal" + "." + namespace + ".svc"
    ensures (vhosts[Public].certificate, vhosts[Public].key) ==
              if tls.public.Some? && tls.public.value != ""
              then (Some("/etc/pki/tls/certs/" + "public" + ".crt"), Some("/etc/pki/tls/private/" + "public" + ".key"))
              else (None, None)
    ensures (vhosts[Internal].certificate, vhosts[Internal].key) ==
              if tls.internal.Some? && tls.internal.value != ""
              then (Some("/etc/pki/tls/certs/" + "internal" + ".crt"), Some("/etc/pki/tls/private/" + "internal" + ".key"))
              else (None, None)
  {
    vhosts := map[];
    var order := [Internal, Public];
    for i := 0 to |order|
      invariant vhosts.Keys == set e | e in order[..i]
      invariant forall e | e in order[..i] :: vhosts[e] == VHostFor(tls, namespace, e)
    {
      var e := order[i];
      var host := VHost("watcher-" + NameOf(e) + "." + namespace + ".svc", None, None);
      if tls.Enabled(e) {
        host := host.(certificate := Some(CertPath(e)), key := Some(KeyPath(e)));
      }
      vhosts := vhosts[e := host];
      assert order[..i + 1] == order[..i] + [e];
    }
    assert order[..2] == order;
    Both(order);
  }

  lemma Both(order: seq<Endpoint>)
    requires |order| == 2 && order[0] != order[1]
    ensures forall e: Endpoint :: e in order
  {
    forall e: Endpoint ensures e in order {
      assert e == order[0] || e == order[1];
    }
  }

  // Services

  /** A service as it is written: whether its annotation asks for an ingress, and the host name to
      register. */
  datatype Service = Service(endpoint: Endpoint, ingress: bool, hostname: bool)

  function OverrideOf(s: SubSpec, e: Endpoint): ServiceOverride {
    if e in s.overrides then s.overrides[e] else ServiceOverride(ClusterIP, None)
  }

  /** Only a public cluster-internal service asks for an ingress; a load balancer registers its name. */
  function ServiceFor(s: SubSpec, e: Endpoint): Service {
    var kind := OverrideOf(s, e).kind;
    Service(e, e == Public && kind == ClusterIP, kind == LoadBalancer)
  }

  datatype PortReply = DefinitionRefused | PatchFailed | PatchWait | Patched

  /** How the library builds an endpoint's URL: from its service, the override and the protocol; None
      is an error. */
  type UrlRule = (Service, Option<string>, bool) -> Option<string>

  datatype PortResult = Exposed(url: string) | Stopped(reply: ServiceReply)

  function ExposePort(s: SubSpec, e: Endpoint, reply: PortReply, rule: UrlRule): PortResult {
    match reply
    case DefinitionRefused => Stopped(ServiceFailed)
    case PatchFailed => Stopped(ServiceFailed)
    case PatchWait => Stopped(ServiceWait)
    case Patched =>
      var u := rule(ServiceFor(s, e), OverrideOf(s, e).endpointURL, s.tls.Enabled(e));
      if u.Some? then Exposed(u.value) else Stopped(UrlFailed)
  }

  /** A URL is built from the endpoint's own service, override and protocol. */
  lemma PortMeans(s: SubSpec, e: Endpoint, reply: PortReply, rule: UrlRule)
    requires ExposePort(s, e, reply, rule).Exposed?
    ensures reply == Patched
    ensures Some(ExposePort(s, e, reply, rule).url) == rule(
      Service(e, e == Public && (e in s.overrides ==> s.overrides[e].kind == ClusterIP),
              e in s.overrides && s.overrides[e].kind == LoadBalancer),
      if e in s.overrides then s.overrides[e].endpointURL else None, s.tls.Enabled(e))
  {}

  /** Outcome over the endpoints in visiting order: the first that stops decides. */
  function ExposeAll(s: SubSpec, order: seq<Endpoint>, replies: Endpoint -> PortReply, rule: UrlRule): ServiceReply {
    if order == [] then ServicesOk
    else
      var r := ExposePort(s, order[0], replies(order[0]), rule);
      if r.Stopped? then r.reply else ExposeAll(s, order[1..], replies, rule)
  }

  function Urls(s: SubSpec, replies: Endpoint -> PortReply, rule: UrlRule): map<Endpoint, string> {
    map e: Endpoint | ExposePort(s, e, replies(e), rule).Exposed? :: ExposePort(s, e, replies(e), rule).url
  }

  /** One round of the loop: one service, and its URL unless something stops. */
  method EnsurePort(instance: Instance, s: SubSpec, e: Endpoint, reply: PortReply, rule: UrlRule)
    returns (url: Option<string>, exit: Exit)
    modifies instance`conds
    ensures match ExposePort(s, e, reply, rule)
      case Exposed(u) => url == Some(u) && instance.conds == old(instance.conds)
      case Stopped(r) =>
        && url == None && exit == ExposeStage(old(instance.State()), r).exit
        && instance.conds == ExposeStage(old(instance.State()), r).st.conds
    ensures reply.DefinitionRefused? || reply.PatchFailed? ==>
              url == None && exit == Exit(0, true) && instance.conds == old(instance.conds)[CreateServiceReady := False(Warning)]
    ensures reply.PatchWait? ==>
              url == None && exit == Exit(0, false) && instance.conds == old(instance.conds)[CreateServiceReady := False(Info)]
    ensures reply.Patched? ==> instance.conds == old(instance.conds) && (url == None ==> exit == Exit(0, true))
  {
    var https := false;
    var kind := OverrideOf(s, e).kind;
    if reply.DefinitionRefused? {
      instance.Set(CreateServiceReady, False(Warning));
      return None, Exit(0, true);
    }
    var svc := Service(e, false, false);
    if e == Public && kind == ClusterIP {
      svc := svc.(ingress := true);
    } else if kind == LoadBalancer {
      svc := svc.(hostname := true);
    }
    if reply.PatchFailed? {
      instance.Set(CreateServiceReady, False(Warning));
      return None, Exit(0, true);
    }
    if reply.PatchWait? {
      instance.Set(CreateServiceReady, False(Info));
      return None, Exit(0, false);
    }
    if s.tls.Enabled(e) {
      https := true;
    }
    url := rule(svc, OverrideOf(s, e).endpointURL, https);
    exit := Exit(0, url.None?);
  }

  /** The loop variable is a copy of the map's entry, so the protocol set for one endpoint does not
      reach the next one. */
  method EnsureServiceExposed(instance: Instance, s: SubSpec, order: seq<Endpoint>,
                              replies: Endpoint -> PortReply, rule: UrlRule)
    returns (endpoints: map<Endpoint, string>, f: Flow)
    requires |order| == 2 && order[0] != order[1]
    modifies instance`conds
    ensures f == ExposeStage(old(instance.State()), ExposeAll(s, order, replies, rule))
    ensures instance.State() == f.st
    ensures f.Go? ==> endpoints == Urls(s, replies, rule)
    ensures f.Halt? ==> endpoints == map[]
    ensures f.Go? ==>
      forall e | e in {Public, Internal} :: e in endpoints && replies(e) == Patched && Some(endpoints[e]) == rule(
        Service(e, e == Public && (e in s.overrides ==> s.overrides[e].kind == ClusterIP),
                e in s.overrides && s.overrides[e].kind == LoadBalancer),
        if e in s.overrides then s.overrides[e].endpointURL else None, s.tls.Enabled(e))
  {
    endpoints := map[];
    for i := 0 to |order|
      invariant instance.State() == old(instance.State())
      invariant endpoints.Keys == set e | e in order[..i]
      invariant forall e | e in order[..i] :: ExposePort(s, e, replies(e), rule) == Exposed(endpoints[e])
      invariant ExposeAll(s, order, replies, rule) == ExposeAll(s, order[i..], replies, rule)
    {
      var e := order[i];
      assert order[i..][1..] == order[i + 1..];
      var url, exit := EnsurePort(instance, s, e, replies(e), rule);
      if url.None? {
        return map[], Halt(instance.State(), exit);
      }
      endpoints := endpoints[e := url.value];
      assert order[..i + 1] == order[..i] + [e];
    }
    assert order[..|order|] == order && order[|order|..] == [];
    Both(order);
    PortMeans(s, Public, replies(Public), rule);
    PortMeans(s, Internal, replies(Internal), rule);
    instance.Set(CreateServiceReady, True);
    f := Go(instance.State());
  }

  /** Whether the endpoints are exposed, and with which URLs, does not depend on the visiting order. */
  lemma OrderIsIrrelevant(s: SubSpec, replies: Endpoint -> PortReply, rule: UrlRule)
    ensures forall order | order in {[Public, Internal], [Internal, Public]} ::
              ExposeAll(s, order, replies, rule) == ServicesOk
              <==> Urls(s, replies, rule).Keys == {Public, Internal}
  {
    forall order | order in {[Public, Internal], [Internal, Public]}
      ensures ExposeAll(s, order, replies, rule) == ServicesOk <==> Urls(s, replies, rule).Keys == {Public, Internal}
    {
      assert order[1..][1..] == [];
      assert ExposeAll(s, order[1..][1..], replies, rule) == ServicesOk;
    }
  }
}
