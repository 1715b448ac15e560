/** One pass of the Watcher on its own, as a function of the CR it reads and of the replies it gets. */
module TopPass {
  import opened Base
  import opened Conditions
  import opened Resources
  import opened Stages
  import opened Secrets
  import opened SubPass

  /** A child as create-or-patch leaves it. */
  datatype ChildReply = ChildFailed | ChildIs(gen: nat, status: Status)

  datatype TopReplies = TopReplies(
    rbac: Rbac, rbacOk: bool, db: DbReply, mq: MqReply,
    main: SecretReply, url: SecretReply, prom: SecretReply, promOwn: bool, promUpdateOk: bool,
    subSecretOk: bool, keystone: ObjectReply, configOk: bool, job: JobReply, cronOk: bool,
    child: (Kind, SubSpec) -> ChildReply, routes: RouteReply, cleanupOk: bool,
    dropDbOk: bool, releaseService: ReleaseReply, releaseSecret: ReleaseReply)

  datatype Top = Top(gen: nat, spec: WatcherSpec, deleting: bool, own: bool, st: Status)

  /** What the pass wrote: whether it updated the Prometheus secret, and the children it patched, in
      order. */
  datatype TopSent = TopSent(prom: bool, children: seq<(Kind, SubSpec)>)

  datatype TopOutcome = TopOutcome(st: Status, exit: Exit, own: bool, sent: TopSent)

  const QUIET := TopSent(false, [])

  function MainRead(c: Top, r: TopReplies): SecretRead {
    ReadSecret(r.main, [c.spec.passwordSelector])
  }

  function UrlRead(r: TopReplies): SecretRead {
    ReadSecret(r.url, [TRANSPORT_URL])
  }

  function PromRead(r: TopReplies): SecretRead {
    ReadSecret(r.prom, PROM_FIELDS)
  }

  function Stop(c: Top, f: Flow, sent: TopSent): TopOutcome
    requires f.Halt?
  {
    TopOutcome(f.st, f.exit, c.own, sent)
  }

  /** What is made of a child's reply. */
  function ChildStage(k: Kind, st: Status, reply: ChildReply, skipReady: bool): Flow {
    match reply
    case ChildFailed => EnsureStage(k, st, false, None)
    case ChildIs(gen, status) => EnsureStage(k, st, true, ChildState(gen, status, skipReady))
  }

  function AndChild(sent: TopSent, k: Kind, c: Top): TopSent {
    sent.(children := sent.children + [(k, Derive(k, c.spec))])
  }

  function Ensuring(c: Top, r: TopReplies, k: Kind, st: Status, skipReady: bool): Flow {
    ChildStage(k, st, r.child(k, Derive(k, c.spec)), skipReady)
  }

  function FromApplier(c: Top, r: TopReplies, st: Status, sent: TopSent, skipReady: bool): TopOutcome {
    var f, s1 := Ensuring(c, r, Applier, st, skipReady), AndChild(sent, Applier, c);
    if f.Halt? then Stop(c, f, s1) else Stop(c, TopFinalStage(f.st, r.cleanupOk), s1)
  }

  function FromEngine(c: Top, r: TopReplies, st: Status, sent: TopSent, skipReady: bool): TopOutcome {
    var f, s1 := Ensuring(c, r, Engine, st, skipReady), AndChild(sent, Engine, c);
    if f.Halt? then Stop(c, f, s1) else FromApplier(c, r, f.st, s1, skipReady)
  }

  function FromRoutes(c: Top, r: TopReplies, st: Status, sent: TopSent, skipReady: bool): TopOutcome {
    var f := ExposeRoutesStage(st, r.routes);
    if f.Halt? then Stop(c, f, sent) else FromEngine(c, r, f.st, sent, skipReady)
  }

  function FromApi(c: Top, r: TopReplies, st: Status, sent: TopSent, skipReady: bool): TopOutcome {
    var f, s1 := Ensuring(c, r, Api, st, skipReady), AndChild(sent, Api, c);
    if f.Halt? then Stop(c, f, s1) else FromRoutes(c, r, f.st, s1, skipReady)
  }

  function FromKeystone(c: Top, r: TopReplies, st: Status, sent: TopSent, skipReady: bool): TopOutcome {
    var f := KeystoneStage(st, r.keystone);
    if f.Halt? then Stop(c, f, sent)
    else
      var g := TopConfigStage(f.st, r.configOk);
      if g.Halt? then Stop(c, g, sent)
      else
        var h := DbSyncStage(g.st, JobHash(c.spec), r.job);
        if h.Halt? then Stop(c, h, sent)
        else
          var i := CronStage(h.st, r.cronOk);
          if i.Halt? then Stop(c, i, sent) else FromApi(c, r, i.st, sent, skipReady)
  }

  function FromInputs(c: Top, r: TopReplies, st: Status, skipReady: bool): TopOutcome {
    var f := TopInputStage(st, MainRead(c, r), UrlRead(r), PromRead(r));
    if f.Halt? then Stop(c, f, QUIET)
    else
      var g := if r.promOwn then f else PromUpdateStage(f.st, r.promUpdateOk);
      var s1 := QUIET.(prom := !r.promOwn);
      if g.Halt? then Stop(c, g, s1)
      else
        var h := SubSecretStage(g.st, r.subSecretOk);
        if h.Halt? then Stop(c, h, s1) else FromKeystone(c, r, h.st, s1, skipReady)
  }

  function FromMq(c: Top, r: TopReplies, st: Status, skipReady: bool): TopOutcome {
    var f := MqStage(st, r.mq);
    if f.Halt? then Stop(c, f, QUIET) else FromInputs(c, r, f.st, skipReady)
  }

  function FromDb(c: Top, r: TopReplies, st: Status, skipReady: bool): TopOutcome {
    var f := DbStage(st, r.db);
    if f.Halt? then Stop(c, f, QUIET) else FromMq(c, r, f.st, skipReady)
  }

  /** A Prometheus secret that cannot be read does not stop the deletion. */
  function TopReleased(r: TopReplies): bool {
    && r.dropDbOk
    && r.releaseService in {NotThere, NotOurs, Updated, UpdateMissing}
    && r.releaseSecret != UpdateFailed
  }

  function Body(c: Top, r: TopReplies, skipReady: bool): TopOutcome {
    var st := RbacStage(Begin(Watcher, c.gen, c.st), r.rbac);
    if !r.rbacOk then TopOutcome(st, Exit(0, true), c.own, QUIET)
    else match GateOf(c.own, c.deleting, c.st.conds == map[])
      case RegisterFirst => TopOutcome(st, Exit(0, false), true, QUIET)
      case OnlyInit => TopOutcome(st, Exit(0, false), c.own, QUIET)
      case Delete => TopOutcome(st, Exit(0, !TopReleased(r)), c.own && !TopReleased(r), QUIET)
      case Work => FromDb(c, r, st, skipReady)
  }

  function Pass(c: Top, r: TopReplies, skipReady: bool): TopOutcome {
    var o := Body(c, r, skipReady);
    o.(st := Deferred(o.st, skipReady))
  }
}
