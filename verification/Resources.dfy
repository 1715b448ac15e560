/** The custom resources: their specs, what the parent derives for each child, and the part of a
    child's spec that decides its StatefulSet. */
module Resources {
  import opened Base
  import opened Conditions

  datatype Kind = Watcher | Api | Engine | Applier

  datatype Endpoint = Public | Internal

  type Selector = map<string, string>

  datatype ServiceType = ClusterIP | NodePort | LoadBalancer

  datatype ServiceOverride = ServiceOverride(kind: ServiceType, endpointURL: Option<string>)

  /** TLS settings: CA bundle secret ("" when unset) and one optional certificate secret per
      endpoint. */
  datatype Tls = Tls(ca: string, internal: Option<string>, public: Option<string>) {
    function SecretOf(e: Endpoint): Option<string> {
      if e.Public? then public else internal
    }

    /** TLS is on for an endpoint when its secret name is set and not empty. */
    predicate Enabled(e: Endpoint) {
      SecretOf(e).Some? && SecretOf(e).value != ""
    }
  }

  datatype Template = Template(replicas: nat, nodeSelector: Option<Selector>,
                               customConfig: string, resources: string)

  /** name is the CR's metadata name. */
  datatype WatcherSpec = WatcherSpec(
    name: string, secret: string, serviceUser: string, passwordSelector: string,
    memcachedInstance: string, prometheusSecret: string, preserveJobs: bool,
    nodeSelector: Option<Selector>, customConfig: string, databaseAccount: string,
    apiImage: string, engineImage: string, applierImage: string,
    api: Template, engine: Template, applier: Template,
    tls: Tls, overrides: map<Endpoint, ServiceOverride>, ingressSecret: Option<string>)

  datatype SubSpec = SubSpec(
    secret: string, serviceUser: string, passwordSelector: string,
    memcachedInstance: string, prometheusSecret: string, preserveJobs: bool,
    nodeSelector: Option<Selector>, customConfig: string,
    image: string, resources: string, serviceAccount: string,
    replicas: nat, tls: Tls, overrides: map<Endpoint, ServiceOverride>)

  datatype Spec = Parent(w: WatcherSpec) | Child(s: SubSpec)

  function TemplateOf(k: Kind, w: WatcherSpec): Template {
    match k
    case Engine => w.engine
    case Applier => w.applier
    case _ => w.api
  }

  /** The spec the parent writes into a child: every child reads the secret the parent generates
      under its own name, inherits the node selector unless its template sets one, and only the
      API gets endpoint certificates and overrides. */
  function Derive(k: Kind, w: WatcherSpec): SubSpec {
    var t := TemplateOf(k, w);
    SubSpec(
      w.name, w.serviceUser, w.passwordSelector, w.memcachedInstance,
      if k == Applier then "" else w.prometheusSecret, w.preserveJobs,
      if t.nodeSelector.None? then w.nodeSelector else t.nodeSelector, t.customConfig,
      match k { case Engine => w.engineImage case Applier => w.applierImage case _ => w.apiImage },
      t.resources, "watcher-" + w.name, t.replicas,
      if k == Api then w.tls else Tls(w.tls.ca, None, None),
      if k == Api then w.overrides else map[])
  }

  /** The Prometheus CA certificate a pod mounts: secret name and key inside it. */
  datatype CaCert = CaCert(secret: string, key: string)

  /** The part of a StatefulSet that its controller decides. */
  datatype Workload = Workload(replicas: nat, image: string, resources: string,
                               serviceAccount: string, nodeSelector: Option<Selector>,
                               tls: Tls, ca: Option<CaCert>, configHash: Digest)

  function WorkloadOf(s: SubSpec, ca: Option<CaCert>, configHash: Digest): Workload {
    Workload(s.replicas, s.image, s.resources, s.serviceAccount, s.nodeSelector, s.tls, ca, configHash)
  }

  /** Hash of the dbsync job definition: it depends on the CR's name, the API image and the CA. */
  function JobHash(w: WatcherSpec): Digest {
    OfValues([w.name, w.apiImage, w.tls.ca])
  }

  /** The recorded hash tells two Watcher specs apart exactly when their dbsync jobs differ: in the CR's
      name, the API image or the CA bundle. */
  lemma JobHashTells(a: WatcherSpec, b: WatcherSpec)
    ensures JobHash(a) == JobHash(b) <==> a.name == b.name && a.apiImage == b.apiImage && a.tls.ca == b.tls.ca
  {
    assert JobHash(a).values[0] == a.name && JobHash(a).values[1] == a.apiImage && JobHash(a).values[2] == a.tls.ca;
    assert JobHash(b).values[0] == b.name && JobHash(b).values[1] == b.apiImage && JobHash(b).values[2] == b.tls.ca;
  }

  /** The conditions a pass resets to Unknown when it starts. */
  predicate Listed(k: Kind, t: Type) {
    match t
    case Ready => true
    case InputReady => true
    case ServiceConfigReady => true
    case MemcachedReady => k != Watcher
    case DeploymentReady => k != Watcher
    case TLSInputReady => k == Api
    case CreateServiceReady => k == Api
    case KeystoneEndpointReady => k == Api
    case DBAccountReady => false
    case _ => k == Watcher
  }

  function InitFor(k: Kind): Table {
    map t: Type | Listed(k, t) :: Unknown
  }

  /** Position of a condition in the kind's pipeline; -1 when it gates nothing. */
  function Rank(k: Kind, t: Type): int {
    match k
    case Watcher =>
      (match t
       case DBReady => 0
       case TransportURLReady => 1
       case InputReady => 2
       case ServiceConfigReady => 3
       case DBSyncReady => 4
       case CronJobReady => 5
       case ExposeServiceReady => 6
       case _ => -1)
    case Api =>
      (match t
       case InputReady => 0
       case MemcachedReady => 1
       case TLSInputReady => 2
       case ServiceConfigReady => 3
       case DeploymentReady => 4
       case CreateServiceReady => 5
       case KeystoneEndpointReady => 6
       case _ => -1)
    case _ =>
      (match t
       case InputReady => 0
       case MemcachedReady => 1
       case ServiceConfigReady => 2
       case DeploymentReady => 3
       case _ => -1)
  }

  /** Exactly the first n pipeline conditions are True. */
  predicate Upto(k: Kind, c: Table, n: int) {
    match k
    case Watcher =>
      && (Is(c, DBReady) <==> 0 < n) && (Is(c, TransportURLReady) <==> 1 < n)
      && (Is(c, InputReady) <==> 2 < n) && (Is(c, ServiceConfigReady) <==> 3 < n)
      && (Is(c, DBSyncReady) <==> 4 < n) && (Is(c, CronJobReady) <==> 5 < n)
      && (Is(c, ExposeServiceReady) <==> 6 < n)
    case Api =>
      && (Is(c, InputReady) <==> 0 < n) && (Is(c, MemcachedReady) <==> 1 < n)
      && (Is(c, TLSInputReady) <==> 2 < n) && (Is(c, ServiceConfigReady) <==> 3 < n)
      && (Is(c, DeploymentReady) <==> 4 < n) && (Is(c, CreateServiceReady) <==> 5 < n)
      && (Is(c, KeystoneEndpointReady) <==> 6 < n)
    case _ =>
      && (Is(c, InputReady) <==> 0 < n) && (Is(c, MemcachedReady) <==> 1 < n)
      && (Is(c, ServiceConfigReady) <==> 2 < n) && (Is(c, DeploymentReady) <==> 3 < n)
  }

  /** The True conditions form a prefix of the pipeline, link by link. */
  predicate Chain(k: Kind, c: Table) {
    match k
    case Watcher =>
      && (Is(c, ExposeServiceReady) ==> Is(c, CronJobReady)) && (Is(c, CronJobReady) ==> Is(c, DBSyncReady))
      && (Is(c, DBSyncReady) ==> Is(c, ServiceConfigReady)) && (Is(c, ServiceConfigReady) ==> Is(c, InputReady))
      && (Is(c, InputReady) ==> Is(c, TransportURLReady)) && (Is(c, TransportURLReady) ==> Is(c, DBReady))
    case Api =>
      && (Is(c, KeystoneEndpointReady) ==> Is(c, CreateServiceReady))
      && (Is(c, CreateServiceReady) ==> Is(c, DeploymentReady))
      && (Is(c, DeploymentReady) ==> Is(c, ServiceConfigReady))
      && (Is(c, ServiceConfigReady) ==> Is(c, TLSInputReady))
      && (Is(c, TLSInputReady) ==> Is(c, MemcachedReady)) && (Is(c, MemcachedReady) ==> Is(c, InputReady))
    case _ =>
      && (Is(c, DeploymentReady) ==> Is(c, ServiceConfigReady))
      && (Is(c, ServiceConfigReady) ==> Is(c, MemcachedReady)) && (Is(c, MemcachedReady) ==> Is(c, InputReady))
  }

  /** The True conditions form a prefix of the pipeline: whatever is True, everything ranked before
      it is. */
  ghost predicate PrefixTrue(k: Kind, c: Table) {
    forall t, u :: 0 <= Rank(k, t) < Rank(k, u) && Is(c, u) ==> Is(c, t)
  }

  lemma ChainIsPrefix(k: Kind, c: Table)
    ensures Chain(k, c) <==> PrefixTrue(k, c)
  {
    if PrefixTrue(k, c) {
      match k {
        case Watcher =>
          assert Rank(k, DBReady) < Rank(k, TransportURLReady) < Rank(k, InputReady)
              < Rank(k, ServiceConfigReady) < Rank(k, DBSyncReady) < Rank(k, CronJobReady)
              < Rank(k, ExposeServiceReady);
        case Api =>
          assert Rank(k, InputReady) < Rank(k, MemcachedReady) < Rank(k, TLSInputReady)
              < Rank(k, ServiceConfigReady) < Rank(k, DeploymentReady) < Rank(k, CreateServiceReady)
              < Rank(k, KeystoneEndpointReady);
        case _ =>
          assert Rank(k, InputReady) < Rank(k, MemcachedReady) < Rank(k, ServiceConfigReady)
              < Rank(k, DeploymentReady);
      }
    }
  }

  /** The Watcher condition that mirrors a child. */
  function ReadyTypeOf(child: Kind): Type {
    match child
    case Engine => EngineReady
    case Applier => ApplierReady
    case _ => APIReady
  }
}
