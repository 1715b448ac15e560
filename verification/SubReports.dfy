/** What a child's working pass reports: for all replies, the state of every condition, the exit, the
    recorded hash and count, and what is written. */
module SubReports {
  import opened Base
  import opened Conditions
  import opened Resources
  import opened Stages
  import opened Secrets
  import opened Endpoints
  import opened SubPass
  import opened SubTheorems

  // How far a pass gets

  predicate Prepared(c: Sub, r: Replies) {
    InputsRead(c, r) && r.mem == MemReady && (r.memOwn || r.memUpdateOk)
  }

  /** The certificates are there and good; the CA bundle counts when it is set. */
  predicate CertsOk(c: Sub, r: Replies) {
    c.kind == Api ==> (c.spec.tls.ca != "" ==> r.ca.CertsAre?) && r.certs.CertsAre?
  }

  /** The first certificate that is not good is missing; the CA bundle is looked at first. */
  predicate CertsAwaited(c: Sub, r: Replies) {
    if c.spec.tls.ca != "" && !r.ca.CertsAre? then r.ca.CertsMissing? else r.certs.CertsMissing?
  }

  lemma CertsRead(c: Sub, r: Replies)
    requires c.kind == Api
    ensures TlsReplyOf(c, r) == if CertsOk(c, r) then TlsOk else if CertsAwaited(c, r) then TlsMissing else TlsBad
  {}

  predicate Hashed(c: Sub, r: Replies) {
    Prepared(c, r) && r.config == ConfigOk && CertsOk(c, r)
  }

  /** The hash of the inputs was on record before. */
  predicate Known(c: Sub, r: Replies) {
    Hashed(c, r) && c.st.hash == Some(InputHash(c, r))
  }

  function Reply(c: Sub, r: Replies): StsReply
    requires Known(c, r)
  {
    DeployReply(c, r)
  }

  predicate RolledOut(c: Sub, r: Replies) {
    Known(c, r) && Reply(c, r).StsIs? && Reply(c, r).obj.observed == Reply(c, r).obj.gen && Reply(c, r).obj.ready == c.spec.replicas
  }

  function Exposure(c: Sub, r: Replies): ServiceReply {
    ExposeAll(c.spec, r.order, r.ports, r.rule)
  }

  predicate Served(c: Sub, r: Replies) {
    RolledOut(c, r) && c.kind == Api && Exposure(c, r) == ServicesOk
  }

  function ServiceState(s: ServiceReply): State {
    match s
    case ServicesOk => True
    case ServiceFailed => False(Warning)
    case ServiceWait => False(Info)
    case UrlFailed => Unknown
  }

  function EndpointState(p: ObjectReply): State {
    if p.ObjectIs? && p.mirrored.Some? then p.mirrored.value else Unknown
  }

  // What is told

  /** The conditions up to the configuration: each is undecided until the pass gets to it. */
  predicate EarlyTold(c: Sub, r: Replies, t: Table) {
    && Get(t, InputReady) ==
         (if InputsRead(c, r) then True else if r.main == SecretMissing then False(Info) else False(Warning))
    && Get(t, MemcachedReady) ==
         (if !InputsRead(c, r) then Unknown
          else match r.mem
               case MemReady => if r.memOwn || r.memUpdateOk then True else False(Warning)
               case MemError => False(Warning)
               case _ => False(Info))
    && (c.kind == Api ==>
          Get(t, TLSInputReady) ==
            (if !Prepared(c, r) || r.config != ConfigOk then Unknown
             else if CertsOk(c, r) then True else if CertsAwaited(c, r) then False(Info) else False(Warning)))
    && Get(t, ServiceConfigReady) ==
         (if Known(c, r) then True else if Prepared(c, r) && r.config == NoKeystone then False(Warning) else Unknown)
  }

  /** A deployment that cannot be patched is a failure; for the API one that is not found is, too. */
  predicate DeployFails(c: Sub, r: Replies) {
    Known(c, r) && (Reply(c, r) == StsFailed || (c.kind == Api && Reply(c, r) == StsNotFound))
  }

  predicate LateTold(c: Sub, r: Replies, t: Table) {
    && Get(t, DeploymentReady) ==
         (if !Known(c, r) then Unknown else if RolledOut(c, r) then True
          else if DeployFails(c, r) then False(Warning) else False(Info))
    && (c.kind == Api ==>
          && Get(t, CreateServiceReady) == (if RolledOut(c, r) then ServiceState(Exposure(c, r)) else Unknown)
          && Get(t, KeystoneEndpointReady) == (if Served(c, r) then EndpointState(Published(c, r)) else Unknown))
  }

  /** The exit: an error for what is wrong, a requeue for a missing main secret and for the library's own
      requeues on the API's deployment and endpoint, nothing otherwise. */
  predicate ExitTold(c: Sub, r: Replies, timeout: Delay, e: Exit) {
    && (e.failed <==>
          || (r.main != SecretMissing && !InputsRead(c, r)) || (InputsRead(c, r) && !Prepared(c, r))
          || (Prepared(c, r) && r.config != ConfigOk)
          || (Prepared(c, r) && r.config == ConfigOk && !CertsOk(c, r) && !CertsAwaited(c, r))
          || DeployFails(c, r)
          || (c.kind == Api && RolledOut(c, r) && (Exposure(c, r) == ServiceFailed || Exposure(c, r) == UrlFailed))
          || (Served(c, r) && Published(c, r) == ObjectFailed))
    && e.requeueAfter ==
         if r.main == SecretMissing then timeout
         else if c.kind == Api && Known(c, r) && Reply(c, r).StsRequeue? then Reply(c, r).after
         else if Served(c, r) && Published(c, r).ObjectIs? then Published(c, r).requeue
         else 0
  }

  /** The record, and what is written besides the CR: Memcached to add the finalizer that it lacks, the
      StatefulSet with the recorded hash, the endpoint with the URLs of both services. */
  predicate WritesTold(c: Sub, r: Replies, o: Outcome) {
    && o.own == c.own && o.st.observed == c.gen
    && o.st.hash == (if Hashed(c, r) then Some(InputHash(c, r)) else c.st.hash)
    && o.st.ready == (if Known(c, r) && Reply(c, r).StsIs? && Reply(c, r).obj.observed == Reply(c, r).obj.gen
                      then Reply(c, r).obj.ready else c.st.ready)
    && (o.sent.mem <==> InputsRead(c, r) && r.mem == MemReady && !r.memOwn)
    && (o.sent.work.Some? <==> Known(c, r))
    && o.sent.published == (if Served(c, r) then Some(Urls(c.spec, r.ports, r.rule)) else None)
  }

  ghost predicate Told(c: Sub, r: Replies, timeout: Delay, o: Outcome) {
    EarlyTold(c, r, o.st.conds) && LateTold(c, r, o.st.conds) && ExitTold(c, r, timeout, o.exit) && WritesTold(c, r, o)
  }

  // Case by case

  /** The table after the inputs, after Memcached, and after the certificates. */
  function Read(c: Sub): Status {
    Put(Begin(c.kind, c.gen, c.st), InputReady, True)
  }

  function Joined(c: Sub): Status {
    Put(Read(c), MemcachedReady, True)
  }

  function Checked(c: Sub): Status {
    if c.kind == Api then Put(Joined(c), TLSInputReady, True) else Joined(c)
  }

  function Configured(c: Sub): Status {
    Put(Checked(c), ServiceConfigReady, True)
  }

  lemma Begins(c: Sub)
    requires c.kind != Watcher
    ensures var t := Begin(c.kind, c.gen, c.st).conds; forall u: Type | u in t :: t[u] == Unknown
  {}

  lemma InputFault(c: Sub, r: Replies, timeout: Delay)
    requires Fits(c, r) && Working(c) && !InputsRead(c, r)
    ensures Told(c, r, timeout, Body(c, r, timeout))
  {
    var missing := r.main == SecretMissing;
    assert Body(c, r, timeout) == Outcome(Put(Begin(c.kind, c.gen, c.st), InputReady, False(if missing then Info else Warning)),
                                          Exit(if missing then timeout else 0, !missing), c.own, NOTHING);
  }

  function MemState(r: Replies): State {
    if r.mem == MemReady || r.mem == MemError then False(Warning) else False(Info)
  }

  lemma MemBody(c: Sub, r: Replies, timeout: Delay)
    requires Fits(c, r) && Working(c) && InputsRead(c, r) && !Prepared(c, r)
    ensures Body(c, r, timeout) ==
      Outcome(Put(Read(c), MemcachedReady, MemState(r)), Exit(0, true), c.own, NOTHING.(mem := r.mem == MemReady))
  {
    assert Put(Put(Read(c), MemcachedReady, True), MemcachedReady, MemState(r)) == Put(Read(c), MemcachedReady, MemState(r));
  }

  lemma MemFault(c: Sub, r: Replies, timeout: Delay)
    requires Fits(c, r) && Working(c) && InputsRead(c, r) && !Prepared(c, r)
    ensures Told(c, r, timeout, Body(c, r, timeout))
  {
    MemBody(c, r, timeout);
  }

  function Writes(r: Replies): Sent {
    NOTHING.(mem := !r.memOwn)
  }

  lemma FromPrepared(c: Sub, r: Replies, timeout: Delay)
    requires Fits(c, r) && Working(c) && Prepared(c, r)
    ensures Body(c, r, timeout) == FromConfig(c, r, Joined(c), Writes(r))
  {
    assert Writes(r) == if r.memOwn then NOTHING else NOTHING.(mem := true);
  }

  lemma ConfigFault(c: Sub, r: Replies, timeout: Delay)
    requires Fits(c, r) && Working(c) && Prepared(c, r) && r.config != ConfigOk
    ensures Told(c, r, timeout, Body(c, r, timeout))
  {
    FromPrepared(c, r, timeout);
    assert Body(c, r, timeout) ==
      Outcome(if r.config == NoKeystone then Put(Joined(c), ServiceConfigReady, False(Warning)) else Joined(c), Exit(0, true), c.own,
              Writes(r));
  }

  lemma CertsFault(c: Sub, r: Replies, timeout: Delay)
    requires Fits(c, r) && Working(c) && Prepared(c, r) && r.config == ConfigOk && !CertsOk(c, r)
    ensures Told(c, r, timeout, Body(c, r, timeout))
  {
    FromPrepared(c, r, timeout);
    CertsRead(c, r);
    var wait := CertsAwaited(c, r);
    assert Body(c, r, timeout) ==
      Outcome(Put(Joined(c), TLSInputReady, False(if wait then Info else Warning)), Exit(0, !wait), c.own, Writes(r));
  }

  lemma FromHashed(c: Sub, r: Replies, timeout: Delay)
    requires Fits(c, r) && Working(c) && Hashed(c, r)
    ensures Body(c, r, timeout) ==
      if c.st.hash != Some(InputHash(c, r))
      then Outcome(Checked(c).(hash := Some(InputHash(c, r))), Exit(0, false), c.own, Writes(r))
      else FromDeploy(c, r, Configured(c), InputHash(c, r), Writes(r))
  {
    FromPrepared(c, r, timeout);
    if c.kind == Api {
      CertsRead(c, r);
    }
  }

  lemma HashNew(c: Sub, r: Replies, timeout: Delay)
    requires Fits(c, r) && Working(c) && Hashed(c, r) && !Known(c, r)
    ensures Told(c, r, timeout, Body(c, r, timeout))
  {
    FromHashed(c, r, timeout);
  }

  lemma DeployReports(c: Sub, r: Replies, st: Status, h: Digest, sent: Sent)
    ensures var o, d := FromDeploy(c, r, st, h, sent), r.deploy(WorkloadOf(c.spec, PodCa(c, r), h));
      var s1 := sent.(work := Some(WorkloadOf(c.spec, PodCa(c, r), h)));
      if d.StsIs? && d.obj.observed == d.obj.gen && d.obj.ready == c.spec.replicas
      then o == FromReady(c, r, Put(st.(ready := d.obj.ready), DeploymentReady, True), s1)
      else
        o == Outcome(Put(if d.StsIs? && d.obj.observed == d.obj.gen then st.(ready := d.obj.ready) else st, DeploymentReady,
                         False(if d == StsFailed || (c.kind == Api && d == StsNotFound) then Warning else Info)),
                     Exit(if c.kind == Api && d.StsRequeue? then d.after else 0,
                          d == StsFailed || (c.kind == Api && d == StsNotFound)),
                     c.own, s1)
  {}

  function DeployState(c: Sub, r: Replies): State
    requires Known(c, r)
  {
    if DeployFails(c, r) then False(Warning) else False(Info)
  }

  /** The status once the StatefulSet has answered, but for its condition. */
  function Counted(c: Sub, r: Replies): Status
    requires Known(c, r)
  {
    var d := Reply(c, r);
    if d.StsIs? && d.obj.observed == d.obj.gen then Configured(c).(ready := d.obj.ready) else Configured(c)
  }

  function Patches(c: Sub, r: Replies): Sent
    requires Known(c, r)
  {
    Writes(r).(work := Some(WorkloadOf(c.spec, PodCa(c, r), InputHash(c, r))))
  }

  lemma DeployBody(c: Sub, r: Replies, timeout: Delay)
    requires Fits(c, r) && Working(c) && Known(c, r)
    ensures Body(c, r, timeout) ==
      if RolledOut(c, r) then FromReady(c, r, Put(Counted(c, r), DeploymentReady, True), Patches(c, r))
      else Outcome(Put(Counted(c, r), DeploymentReady, DeployState(c, r)),
                   Exit(if c.kind == Api && Reply(c, r).StsRequeue? then Reply(c, r).after else 0, DeployFails(c, r)),
                   c.own, Patches(c, r))
  {
    FromHashed(c, r, timeout);
    DeployReports(c, r, Configured(c), InputHash(c, r), Writes(r));
  }

  lemma PendingBase(c: Sub, r: Replies)
    requires c.kind != Watcher && Known(c, r) && !RolledOut(c, r)
    ensures var t := Put(Counted(c, r), DeploymentReady, DeployState(c, r)).conds;
      EarlyTold(c, r, t) && LateTold(c, r, t)
  {
    Begins(c);
  }

  lemma DeployFault(c: Sub, r: Replies, timeout: Delay)
    requires Fits(c, r) && Working(c) && Known(c, r) && !RolledOut(c, r)
    ensures Told(c, r, timeout, Body(c, r, timeout))
  {
    DeployBody(c, r, timeout);
    PendingBase(c, r);
  }

  // The end

  lemma FinalKeeps(st: Status)
    ensures var f := FinalStage(st).st;
      && (forall t | t != Ready :: Get(f.conds, t) == Get(st.conds, t))
      && f.hash == st.hash && f.ready == st.ready && f.observed == st.observed
  {}

  /** Told of everything but the services: what holds of any pass that gets past its deployment. */
  predicate BaseTold(c: Sub, r: Replies, st: Status) {
    match st
    case Status(t, observed, hash, ready) =>
      && EarlyTold(c, r, t) && Get(t, DeploymentReady) == True
      && observed == c.gen && hash == c.st.hash && Known(c, r) && Reply(c, r).StsIs? && ready == Reply(c, r).obj.ready
  }

  lemma DeployedBase(c: Sub, r: Replies)
    requires c.kind != Watcher && RolledOut(c, r)
    ensures var st := Put(Counted(c, r), DeploymentReady, True);
      BaseTold(c, r, st) && Get(st.conds, CreateServiceReady) == Unknown && Get(st.conds, KeystoneEndpointReady) == Unknown
  {
    Begins(c);
  }

  lemma EndTold(c: Sub, r: Replies, timeout: Delay, o: Outcome)
    requires Fits(c, r) && RolledOut(c, r) && BaseTold(c, r, o.st) && o.own == c.own
    requires c.kind == Api ==>
      && Get(o.st.conds, CreateServiceReady) == ServiceState(Exposure(c, r))
      && Get(o.st.conds, KeystoneEndpointReady) == (if Served(c, r) then EndpointState(Published(c, r)) else Unknown)
    requires o.exit.failed <==>
      && c.kind == Api
      && (Exposure(c, r) == ServiceFailed || Exposure(c, r) == UrlFailed || (Served(c, r) && Published(c, r) == ObjectFailed))
    requires o.exit.requeueAfter == if Served(c, r) && Published(c, r).ObjectIs? then Published(c, r).requeue else 0
    requires o.sent == Patches(c, r).(published := if Served(c, r) then Some(Urls(c.spec, r.ports, r.rule)) else None)
    ensures Told(c, r, timeout, o)
  {}

  lemma PlainEnd(c: Sub, r: Replies, timeout: Delay)
    requires Fits(c, r) && Working(c) && RolledOut(c, r) && c.kind != Api
    ensures Told(c, r, timeout, Body(c, r, timeout))
  {
    DeployBody(c, r, timeout);
    var st := Put(Counted(c, r), DeploymentReady, True);
    DeployedBase(c, r);
    FinalKeeps(st);
    EndTold(c, r, timeout, Outcome(FinalStage(st).st, Exit(0, false), c.own, Patches(c, r)));
  }

  lemma ServiceEnd(c: Sub, r: Replies, timeout: Delay)
    requires Fits(c, r) && Working(c) && RolledOut(c, r) && c.kind == Api && Exposure(c, r) != ServicesOk
    ensures Told(c, r, timeout, Body(c, r, timeout))
  {
    DeployBody(c, r, timeout);
    DeployedBase(c, r);
    var st, s := Put(Counted(c, r), DeploymentReady, True), Exposure(c, r);
    var f := ExposeStage(st, s);
    assert Body(c, r, timeout) == Outcome(f.st, f.exit, c.own, Patches(c, r));
    EndTold(c, r, timeout, Body(c, r, timeout));
  }

  function Announced(c: Sub, r: Replies): Status
    requires Known(c, r)
  {
    Put(Put(Counted(c, r), DeploymentReady, True), CreateServiceReady, True)
  }

  function Publishes(c: Sub, r: Replies): Sent
    requires Known(c, r)
  {
    Patches(c, r).(published := Some(Urls(c.spec, r.ports, r.rule)))
  }

  lemma EndpointBody(c: Sub, r: Replies, timeout: Delay)
    requires Fits(c, r) && Working(c) && Served(c, r)
    ensures var f := EndpointStage(Announced(c, r), Published(c, r));
      Body(c, r, timeout) == if f.Halt? then Outcome(f.st, f.exit, c.own, Publishes(c, r))
                             else Outcome(FinalStage(f.st).st, Exit(0, false), c.own, Publishes(c, r))
  {
    DeployBody(c, r, timeout);
    var st := Put(Counted(c, r), DeploymentReady, True);
    assert ExposeStage(st, Exposure(c, r)) == Go(Announced(c, r));
    assert FromReady(c, r, st, Patches(c, r)) == FromPublish(c, r, Announced(c, r), Patches(c, r));
  }

  lemma AnnouncedBase(c: Sub, r: Replies)
    requires Served(c, r)
    ensures var st := EndpointStage(Announced(c, r), Published(c, r)).st;
      && BaseTold(c, r, st) && Get(st.conds, CreateServiceReady) == True
      && Get(st.conds, KeystoneEndpointReady) == EndpointState(Published(c, r))
  {
    DeployedBase(c, r);
    var before := Put(Counted(c, r), DeploymentReady, True);
    EndpointKeeps(before, Published(c, r));
    SameBase(c, r, before, EndpointStage(Announced(c, r), Published(c, r)).st);
  }

  lemma EndpointKeeps(st: Status, p: ObjectReply)
    requires Get(st.conds, KeystoneEndpointReady) == Unknown
    ensures var f := EndpointStage(Put(st, CreateServiceReady, True), p).st;
      && (forall t | t !in {CreateServiceReady, KeystoneEndpointReady} :: Get(f.conds, t) == Get(st.conds, t))
      && Get(f.conds, CreateServiceReady) == True && Get(f.conds, KeystoneEndpointReady) == EndpointState(p)
      && f.hash == st.hash && f.ready == st.ready && f.observed == st.observed
  {}

  lemma EndpointEnd(c: Sub, r: Replies, timeout: Delay)
    requires Fits(c, r) && Working(c) && Served(c, r)
    ensures Told(c, r, timeout, Body(c, r, timeout))
  {
    EndpointBody(c, r, timeout);
    AnnouncedBase(c, r);
    FinalKeeps(EndpointStage(Announced(c, r), Published(c, r)).st);
    SameBase(c, r, EndpointStage(Announced(c, r), Published(c, r)).st, Body(c, r, timeout).st);
    EndTold(c, r, timeout, Body(c, r, timeout));
  }

  lemma SameBase(c: Sub, r: Replies, st: Status, after: Status)
    requires BaseTold(c, r, st) && after.hash == st.hash && after.ready == st.ready && after.observed == st.observed
    requires forall t | t in {InputReady, MemcachedReady, TLSInputReady, ServiceConfigReady, DeploymentReady} ::
               Get(after.conds, t) == Get(st.conds, t)
    ensures BaseTold(c, r, after)
  {}

  /** The report of a working pass, for all replies: every condition's state, the exit, the record and the
      writes. */
  lemma PassReports(c: Sub, r: Replies, timeout: Delay, skipReady: bool)
    requires Fits(c, r) && Working(c)
    ensures Told(c, r, timeout, Pass(c, r, timeout, skipReady))
  {
    if !InputsRead(c, r) {
      InputFault(c, r, timeout);
    } else if !Prepared(c, r) {
      MemFault(c, r, timeout);
    } else if r.config != ConfigOk {
      ConfigFault(c, r, timeout);
    } else if !CertsOk(c, r) {
      CertsFault(c, r, timeout);
    } else if !Known(c, r) {
      HashNew(c, r, timeout);
    } else if !RolledOut(c, r) {
      DeployFault(c, r, timeout);
    } else if c.kind != Api {
      PlainEnd(c, r, timeout);
    } else if !Served(c, r) {
      ServiceEnd(c, r, timeout);
    } else {
      EndpointEnd(c, r, timeout);
    }
    DeferredTells(c, r, timeout, Body(c, r, timeout), skipReady);
  }

  lemma DeferredTells(c: Sub, r: Replies, timeout: Delay, o: Outcome, skipReady: bool)
    requires c.kind != Watcher && Told(c, r, timeout, o)
    ensures Told(c, r, timeout, o.(st := Deferred(o.st, skipReady)))
  {}

  // Ready

  /** Ready is undecided, or True over an all-True table. */
  ghost predicate Fair(st: Status) {
    match st
    case Status(t, _, _, _) => Ready in t && (t[Ready] == Unknown || (t[Ready] == True && AllSubTrue(t)))
  }

  predicate Open(st: Status) {
    Ready in st.conds && st.conds[Ready] == Unknown
  }

  lemma ReadyIsFair(c: Sub, r: Replies, st: Status, sent: Sent)
    requires Open(st)
    ensures Fair(FromReady(c, r, st, sent).st)
  {}

  lemma ConfigIsFair(c: Sub, r: Replies, st: Status, sent: Sent)
    requires Open(st) && InputsRead(c, r)
    ensures Fair(FromConfig(c, r, st, sent).st)
  {
    var g := TlsStage(c.kind, ConfigStage(st, r.config).st, TlsReplyOf(c, r));
    if r.config.ConfigOk? && g.Go? {
      var h := InputHash(c, r);
      var i := HashStage(g.st, h);
      if i.Go? {
        var f := DeployStage(c.kind, i.st, c.spec.replicas, r.deploy(WorkloadOf(c.spec, PodCa(c, r), h)));
        ReadyIsFair(c, r, f.st, sent.(work := Some(WorkloadOf(c.spec, PodCa(c, r), h))));
      }
    }
  }

  lemma BodyIsFair(c: Sub, r: Replies, timeout: Delay)
    requires Fits(c, r)
    ensures Fair(Body(c, r, timeout).st)
  {
    var st := Begin(c.kind, c.gen, c.st);
    assert Open(st);
    if Working(c) && InputsRead(c, r) {
      var f := MemStage(Put(st, InputReady, True), r.mem);
      if f.Go? && (r.memOwn || r.memUpdateOk) {
        ConfigIsFair(c, r, f.st, if r.memOwn then NOTHING else NOTHING.(mem := true));
      }
    }
  }

  /** In the persisted table Ready blames exactly the worst of the other conditions: it is False with a
      severity exactly when some other condition is, and none is worse. */
  predicate Blames(t: Table) {
    && Ready in t
    && forall s: Severity :: t[Ready] == False(s) <==>
         (exists u | u in t && u != Ready :: t[u] == False(s))
         && forall u | u in t && u != Ready :: Badness(t[u]) <= Badness(False(s))
  }

  lemma FairBlames(st: Status, skipReady: bool)
    requires Fair(st)
    ensures Blames(Deferred(st, skipReady).conds)
  {
    var t, d := st.conds, Deferred(st, skipReady).conds;
    assert forall u | u in t && u != Ready :: d[u] == t[u];
    forall s: Severity
      ensures d[Ready] == False(s) <==>
        && (exists u | u in d && u != Ready :: d[u] == False(s))
        && forall u | u in d && u != Ready :: Badness(d[u]) <= Badness(False(s))
    {
      MirrorIsWorst(t, skipReady, False(s));
      assert forall u :: u in Seen(t, skipReady) <==> u in t && !(skipReady && u == Ready);
    }
  }

  lemma ReadyBlames(c: Sub, r: Replies, timeout: Delay, skipReady: bool)
    requires Fits(c, r)
    ensures Blames(Pass(c, r, timeout, skipReady).st.conds)
  {
    BodyIsFair(c, r, timeout);
    FairBlames(Body(c, r, timeout).st, skipReady);
  }

  // The opening

  /** Nothing is written unless the CR is registered, initialised and not under deletion; a pass that is
      not that far registers it, or does nothing but initialise its conditions. */
  lemma OnlyRegistered(c: Sub, r: Replies, timeout: Delay, skipReady: bool)
    requires Fits(c, r)
    ensures var o := Pass(c, r, timeout, skipReady);
      && (o.sent != NOTHING ==> c.own && !c.deleting && c.st.conds != map[])
      && (!c.own && !c.deleting ==> o.own && o.exit == Exit(0, false))
      && ((c.own || c.deleting) && c.st.conds == map[] ==> o.own == c.own && o.exit == Exit(0, false))
      && (!Working(c) ==> o.st.hash == c.st.hash && forall t | t in o.st.conds :: o.st.conds[t] == Unknown)
    ensures Working(c) <==> c.own && !c.deleting && c.st.conds != map[]
  {
    if !Working(c) {
      var st := Begin(c.kind, c.gen, c.st);
      assert forall t | t in st.conds :: st.conds[t] == Unknown;
      assert Body(c, r, timeout).st == st;
    }
  }

  // What the inputs need

  /** The main secret needs seven fields, the Prometheus secret two; nothing else about them matters. */
  lemma InputsNeed(c: Sub, r: Replies)
    ensures MainRead(c, r).Got? <==>
      && r.main.SecretIs?
      && {c.spec.passwordSelector, "transport_url", "database_account", "database_username", "database_hostname",
          "database_password", "01-global-custom.conf"} <= r.main.data.Keys
    ensures MainRead(c, r).Missing? <==> r.main == SecretMissing
    ensures PromRead(r).Got? <==> r.prom.SecretIs? && {"host", "port"} <= r.prom.data.Keys
    ensures InputsRead(c, r) <==> MainRead(c, r).Got? && (c.kind != Applier ==> PromRead(r).Got?)
  {
    var fields := MainFields(c.spec.passwordSelector);
    assert fields[0] == c.spec.passwordSelector && fields[1] == "transport_url" && fields[2] == "database_account"
        && fields[3] == "database_username" && fields[4] == "database_hostname" && fields[5] == "database_password"
        && fields[6] == "01-global-custom.conf";
    assert PROM_FIELDS[0] == "host" && PROM_FIELDS[1] == "port";
  }

  // What is published

  predicate TlsSet(s: Option<string>) {
    s.Some? && s.value != ""
  }

  /** A published endpoint has a URL for both services, each built from its own service, override and
      protocol: the public one asks for an ingress unless an override makes it anything but
      cluster-internal, a load balancer registers its host name, and https follows the endpoint's own
      certificate. */
  lemma PublishesBoth(c: Sub, r: Replies, timeout: Delay, skipReady: bool)
    requires Fits(c, r) && Pass(c, r, timeout, skipReady).sent.published.Some?
    ensures var urls, over := Pass(c, r, timeout, skipReady).sent.published.value, c.spec.overrides;
      && urls.Keys == {Public, Internal}
      && Some(urls[Public]) == r.rule(
           Service(Public, Public in over ==> over[Public].kind == ClusterIP, Public in over && over[Public].kind == LoadBalancer),
           if Public in over then over[Public].endpointURL else None, TlsSet(c.spec.tls.public))
      && Some(urls[Internal]) == r.rule(
           Service(Internal, false, Internal in over && over[Internal].kind == LoadBalancer),
           if Internal in over then over[Internal].endpointURL else None, TlsSet(c.spec.tls.internal))
  {
    OnlyRegistered(c, r, timeout, skipReady);
    PassReports(c, r, timeout, skipReady);
    OrderIsIrrelevant(c.spec, r.ports, r.rule);
    assert r.order == [r.order[0], r.order[1]];
    assert r.order in {[Public, Internal], [Internal, Public]};
    var urls := Urls(c.spec, r.ports, r.rule);
    assert Public in urls && Internal in urls;
    PortMeans(c.spec, Public, r.ports(Public), r.rule);
    PortMeans(c.spec, Internal, r.ports(Internal), r.rule);
  }
}
