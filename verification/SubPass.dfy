/** One pass of a WatcherAPI, WatcherDecisionEngine or WatcherApplier on its own, as a function of
    the CR it reads and of the replies it gets. */
module SubPass {
  import opened Base
  import opened Conditions
  import opened Resources
  import opened Stages
  import opened Secrets
  import opened Endpoints

  /** Validation of a certificate secret; the hash of an unset CA bundle is None. */
  datatype CertReply = CertsAre(hash: Option<Digest>) | CertsMissing | CertsBad

  /** Release of one shared object during deletion. */
  datatype ReleaseReply = NotThere | NotReadable | NotOurs | Updated | UpdateMissing | UpdateFailed

  /** Replies of the API server and of other operators during one pass. render is the hash of the
      rendered configuration; deploy answers for the StatefulSet that is patched. */
  datatype Replies = Replies(
    main: SecretReply, prom: SecretReply,
    mem: MemReply, memOwn: bool, memUpdateOk: bool,
    config: ConfigReply, render: Digest, ca: CertReply, certs: CertReply,
    deploy: Workload -> StsReply,
    order: seq<Endpoint>, ports: Endpoint -> PortReply, rule: UrlRule,
    publish: map<Endpoint, string> -> ObjectReply,
    releaseEndpoint: ReleaseReply, releaseMem: ReleaseReply)

  /** What a pass asked the API server to write, besides its own CR. */
  datatype Sent = Sent(mem: bool, work: Option<Workload>, published: Option<map<Endpoint, string>>)

  const NOTHING := Sent(false, None, None)

  datatype Outcome = Outcome(st: Status, exit: Exit, own: bool, sent: Sent)

  /** name is the CR's own name, under which the rendered configuration is hashed. */
  datatype Sub = Sub(name: string, kind: Kind, gen: nat, spec: SubSpec, deleting: bool, own: bool, st: Status)

  predicate Fits(c: Sub, r: Replies) {
    c.kind != Watcher && |r.order| == 2 && r.order[0] != r.order[1]
  }

  // Inputs

  const CA_BUNDLE_KEY := "tls-ca-bundle.pem"
  const TLS_HASH_NAME := "certs"

  function ConfigKey(name: string): string {
    name + "-config-data"
  }

  function MainRead(c: Sub, r: Replies): SecretRead {
    ReadSecret(r.main, MainFields(c.spec.passwordSelector))
  }

  function PromRead(r: Replies): SecretRead {
    ReadSecret(r.prom, PROM_FIELDS)
  }

  function TlsReplyOf(c: Sub, r: Replies): TlsReply {
    if c.spec.tls.ca != "" && r.ca.CertsMissing? then TlsMissing
    else if c.spec.tls.ca != "" && r.ca.CertsBad? then TlsBad
    else if r.certs.CertsMissing? then TlsMissing
    else if r.certs.CertsBad? then TlsBad
    else TlsOk
  }

  predicate InputsRead(c: Sub, r: Replies) {
    MainRead(c, r).Got? && (c.kind == Applier || PromRead(r).Got?)
  }

  function SecretVars(c: Sub, r: Replies): map<string, Digest>
    requires InputsRead(c, r)
  {
    var v := map[c.spec.secret := MainRead(c, r).hash];
    if c.kind == Applier then v else v[c.spec.prometheusSecret := PromRead(r).hash]
  }

  function TlsVars(c: Sub, r: Replies, v: map<string, Digest>): map<string, Digest>
    requires TlsReplyOf(c, r) == TlsOk
  {
    var v1 := if c.spec.tls.ca != "" && r.ca.hash.Some? then v[CA_BUNDLE_KEY := r.ca.hash.value] else v;
    v1[TLS_HASH_NAME := if r.certs.hash.Some? then r.certs.hash.value else OfText("")]
  }

  /** The variables whose merged hash restarts the pods. Later entries overwrite earlier ones of the
      same name. */
  function ConfigVars(c: Sub, r: Replies): map<string, Digest>
    requires InputsRead(c, r)
    requires c.kind == Api ==> TlsReplyOf(c, r) == TlsOk
  {
    var v := SecretVars(c, r)[ConfigKey(c.name) := r.render];
    if c.kind == Api then TlsVars(c, r, v) else v
  }

  /** The Prometheus CA that goes to the pods; the applier knows none. */
  function PodCa(c: Sub, r: Replies): Option<CaCert> {
    if c.kind != Applier && r.prom.SecretIs? then CaOf(r.prom.data) else None
  }

  // The pass

  function Worked(c: Sub, f: Flow, sent: Sent): Outcome
    requires f.Halt?
  {
    Outcome(f.st, f.exit, c.own, sent)
  }

  function FromPublish(c: Sub, r: Replies, st: Status, sent: Sent): Outcome {
    var urls := Urls(c.spec, r.ports, r.rule);
    var s1 := sent.(published := Some(urls));
    var f := EndpointStage(st, r.publish(urls));
    Worked(c, if f.Halt? then f else FinalStage(f.st), s1)
  }

  function FromExpose(c: Sub, r: Replies, st: Status, sent: Sent): Outcome {
    var g := ExposeStage(st, ExposeAll(c.spec, r.order, r.ports, r.rule));
    if g.Halt? then Worked(c, g, sent) else FromPublish(c, r, g.st, sent)
  }

  /** Once the deployment is ready. */
  function FromReady(c: Sub, r: Replies, st: Status, sent: Sent): Outcome {
    if c.kind == Api then FromExpose(c, r, st, sent) else Worked(c, FinalStage(st), sent)
  }

  function FromDeploy(c: Sub, r: Replies, st: Status, h: Digest, sent: Sent): Outcome {
    var work := WorkloadOf(c.spec, PodCa(c, r), h);
    var s1 := sent.(work := Some(work));
    var f := DeployStage(c.kind, st, c.spec.replicas, r.deploy(work));
    if f.Halt? then Worked(c, f, s1) else FromReady(c, r, f.st, s1)
  }

  function FromConfig(c: Sub, r: Replies, st: Status, sent: Sent): Outcome
    requires InputsRead(c, r)
  {
    var f := ConfigStage(st, r.config);
    if f.Halt? then Worked(c, f, sent)
    else
      var g := TlsStage(c.kind, f.st, TlsReplyOf(c, r));
      if g.Halt? then Worked(c, g, sent)
      else
        var h := OfEnv(ConfigVars(c, r));
        var i := HashStage(g.st, h);
        if i.Halt? then Worked(c, i, sent) else FromDeploy(c, r, i.st, h, sent)
  }

  function FromMemcached(c: Sub, r: Replies, st: Status): Outcome
    requires InputsRead(c, r)
  {
    var f := MemStage(st, r.mem);
    if f.Halt? then Worked(c, f, NOTHING)
    else if r.memOwn then FromConfig(c, r, f.st, NOTHING)
    else
      var g := MemUpdateStage(f.st, r.memUpdateOk);
      var s1 := NOTHING.(mem := true);
      if g.Halt? then Worked(c, g, s1) else FromConfig(c, r, g.st, s1)
  }

  function FromInputs(c: Sub, r: Replies, timeout: Delay, st: Status): Outcome {
    var f := InputStage(c.kind, st, MainRead(c, r), PromRead(r), timeout);
    if f.Halt? then Worked(c, f, NOTHING) else FromMemcached(c, r, f.st)
  }

  /** Deletion gives up the CR's own finalizer only when every object is dealt with. */
  function Released(k: Kind, r: Replies): bool {
    && (k == Api ==> r.releaseEndpoint in {NotThere, NotOurs, Updated, UpdateMissing})
    && r.releaseMem in {NotThere, NotOurs, Updated}
  }

  /** An unreadable Memcached stops the deletion without an error. */
  function DeleteExit(k: Kind, r: Replies): Exit {
    if k == Api && r.releaseEndpoint in {NotReadable, UpdateFailed} then Exit(0, true)
    else if r.releaseMem == NotReadable then Exit(0, false)
    else if r.releaseMem in {UpdateMissing, UpdateFailed} then Exit(0, true)
    else Exit(0, false)
  }

  /** The pass up to the deferred write. */
  function Body(c: Sub, r: Replies, timeout: Delay): Outcome {
    var st := Begin(c.kind, c.gen, c.st);
    match GateOf(c.own, c.deleting, c.st.conds == map[])
    case RegisterFirst => Outcome(st, Exit(0, false), true, NOTHING)
    case OnlyInit => Outcome(st, Exit(0, false), c.own, NOTHING)
    case Delete => Outcome(st, DeleteExit(c.kind, r), c.own && !Released(c.kind, r), NOTHING)
    case Work => FromInputs(c, r, timeout, st)
  }

  /** The whole pass: what it persists and hands back. */
  function Pass(c: Sub, r: Replies, timeout: Delay, skipReady: bool): Outcome {
    var o := Body(c, r, timeout);
    o.(st := Deferred(o.st, skipReady))
  }
}
