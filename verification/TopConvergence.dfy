/** Convergence of the whole operator: with inputs frozen and good, and the Watcher, its three
    children, their StatefulSets and the dbsync job all having their turns, the Watcher becomes Ready
    and stays so. */
module TopConvergence {
  import opened Base
  import opened Conditions
  import opened Resources
  import opened Stages
  import opened TopPass
  import Secrets
  import Endpoints
  import S = SubPass
  import ST = SubTheorems
  import V = Convergence
  import TT = TopTheorems

  /** A child's CR, if it is there, its StatefulSet, and whether Memcached carries its finalizer. */
  datatype Kid = Kid(cr: Option<S.Sub>, sts: Option<Sts>, memOwn: bool)

  datatype Job = NotStarted | Started | Done

  datatype Operator = Operator(top: Top, promOwn: bool, job: Job, api: Kid, engine: Kid, applier: Kid) {
    function KidOf(k: Kind): Kid {
      match k
      case Engine => engine
      case Applier => applier
      case _ => api
    }

    function WithKid(k: Kind, kid: Kid): Operator {
      match k
      case Engine => this.(engine := kid)
      case Applier => this.(applier := kid)
      case _ => this.(api := kid)
    }
  }

  const KIDS := {Api, Engine, Applier}

  function KidName(w: WatcherSpec, k: Kind): string {
    match k
    case Engine => w.name + "-decision-engine"
    case Applier => w.name + "-applier"
    case _ => w.name + "-api"
  }

  /** The child as a first create writes it. */
  function NewKid(w: WatcherSpec, k: Kind): S.Sub {
    S.Sub(KidName(w, k), k, 1, Derive(k, w), false, false, NEW_STATUS)
  }

  /** Create-or-patch of a child. */
  function PatchKid(kid: Kid, w: WatcherSpec, k: Kind): S.Sub {
    if kid.cr.None? then NewKid(w, k)
    else if kid.cr.value.spec == Derive(k, w) then kid.cr.value
    else kid.cr.value.(gen := kid.cr.value.gen + 1, spec := Derive(k, w))
  }

  // The frozen environment

  /** Everything the Watcher asks for is there and answers well, except that the job and the children
      answer for themselves. */
  predicate TopFrozen(c: Top, r: TopReplies) {
    match r.keystone
    case ObjectFailed => false
    case ObjectIs(mirrored, _) =>
      && !c.deleting && r.rbacOk && TT.RbacTrue(r.rbac) && r.db.DbOk? && r.mq.MqOk?
      && MainRead(c, r).Got? && UrlRead(r).Got? && PromRead(r).Got? && r.promUpdateOk && r.subSecretOk
      && mirrored == Some(True) && r.configOk && r.cronOk && r.routes.RoutesOk? && r.cleanupOk
  }

  /** The children's environments are frozen and good for the specs they are going to have. */
  predicate KidsFrozen(w: WatcherSpec, rs: Kind -> S.Replies) {
    V.Frozen(NewKid(w, Api), rs(Api)) && V.Frozen(NewKid(w, Engine), rs(Engine)) && V.Frozen(NewKid(w, Applier), rs(Applier))
  }

  predicate KidOk(kid: Kid, w: WatcherSpec, k: Kind) {
    kid.cr.Some? ==> kid.cr.value.kind == k && kid.cr.value.name == KidName(w, k) && !kid.cr.value.deleting
  }

  predicate Given(x: Operator, r: TopReplies, rs: Kind -> S.Replies) {
    match x
    case Operator(top, _, _, api, engine, applier) =>
      && TopFrozen(top, r) && KidsFrozen(top.spec, rs)
      && KidOk(api, top.spec, Api) && KidOk(engine, top.spec, Engine) && KidOk(applier, top.spec, Applier)
  }

  /** Good replies for the Watcher; what is answered for the job and the children is replaced. */
  function Smooth(w: WatcherSpec): TopReplies {
    TopReplies(Rbac(True, True, True), true, DbOk, MqOk, Secrets.SecretIs(map[w.passwordSelector := "value"]),
               Secrets.SecretIs(map[Secrets.TRANSPORT_URL := "value"]),
               Secrets.SecretIs(map f | f in Secrets.PROM_FIELDS :: "value"), false, true, true,
               ObjectIs(Some(True), 0), true, JobDone, true, (k: Kind, spec: SubSpec) => ChildFailed,
               RoutesOk, true, true, S.NotThere, S.NotThere)
  }

  /** A Watcher that has just been created, with nothing else there. */
  function Blank(w: WatcherSpec): Operator {
    var none := Kid(None, None, false);
    Operator(Top(1, w, false, false, NEW_STATUS), false, NotStarted, none, none, none)
  }

  /** The frozen environment is possible: for every Watcher without TLS and overrides there are replies,
      to it and to its children, under which it may start from nothing. */
  lemma GivenHappens(w: WatcherSpec)
    requires w.tls == Tls("", None, None) && w.overrides == map[]
    ensures Given(Blank(w), Smooth(w), (k: Kind) => ST.Requeueing(w.passwordSelector, 0))
  {
    SmoothKid(w, Api);
    SmoothKid(w, Engine);
    SmoothKid(w, Applier);
  }

  lemma SmoothKid(w: WatcherSpec, k: Kind)
    requires k in KIDS && w.tls == Tls("", None, None) && w.overrides == map[]
    ensures V.Frozen(NewKid(w, k), ST.Requeueing(w.passwordSelector, 0))
  {
    var r := ST.Requeueing(w.passwordSelector, 0);
    var c := NewKid(w, k);
    assert S.InputsRead(c, r);
    if k == Api {
      assert [Public, Internal][1..] == [Internal] && [Internal][1..] == [];
      assert Endpoints.ExposeAll(c.spec, [Internal], r.ports, r.rule) == ServicesOk;
    }
  }

  predicate JobIsDone(x: Operator) {
    x.top.st.hash == Some(JobHash(x.top.spec)) || x.job == Done
  }

  function Answers(x: Operator, r: TopReplies): TopReplies {
    r.(promOwn := x.promOwn, job := if JobIsDone(x) then JobDone else JobRunning(1),
       child := (k: Kind, spec: SubSpec) =>
         var c := PatchKid(x.KidOf(k), x.top.spec, k); ChildIs(c.gen, c.st))
  }

  // Steps

  /** A pass of the Watcher of which the parts written before a crash are named, a move of the dbsync
      job, or a step of a child's cluster. */
  datatype Step =
    | Reconcile(prom: bool, job: bool, api: bool, engine: bool, applier: bool, own: bool, status: bool)
    | JobMove
    | KidStep(k: Kind, s: V.Step)

  const FULL := Reconcile(true, true, true, true, true, true, true)

  predicate Patches(o: TopOutcome, k: Kind) {
    exists i | 0 <= i < |o.sent.children| :: o.sent.children[i].0 == k
  }

  function KidAfter(x: Operator, o: TopOutcome, k: Kind, write: bool): Kid {
    var kid := x.KidOf(k);
    if write && Patches(o, k) then kid.(cr := Some(PatchKid(kid, x.top.spec, k))) else kid
  }

  predicate Opening(c: Top) {
    !c.own || c.st.conds == map[]
  }

  function TopNext(x: Operator, r: TopReplies, skipReady: bool, s: Step): Operator
    requires s.Reconcile?
  {
    var o := Pass(x.top, Answers(x, r), skipReady);
    Operator(x.top.(own := if s.own then o.own else x.top.own, st := if s.status then o.st else x.top.st),
             x.promOwn || (s.prom && o.sent.prom),
             if s.job && !Opening(x.top) && !JobIsDone(x) && x.job == NotStarted then Started else x.job,
             KidAfter(x, o, Api, s.api), KidAfter(x, o, Engine, s.engine), KidAfter(x, o, Applier, s.applier))
  }

  function AsCluster(kid: Kid): V.Cluster
    requires kid.cr.Some?
  {
    V.Cluster(kid.cr.value, kid.sts, kid.memOwn)
  }

  function AsKid(x: V.Cluster): Kid {
    Kid(Some(x.c), x.sts, x.memOwn)
  }

  function Next(x: Operator, r: TopReplies, rs: Kind -> S.Replies, timeout: Delay, skipReady: bool, s: Step): Operator {
    match s
    case Reconcile(_, _, _, _, _, _, _) => TopNext(x, r, skipReady, s)
    case JobMove => if x.job == Started then x.(job := Done) else x
    case KidStep(k, t) =>
      if k != Watcher && x.KidOf(k).cr.Some?
      then x.WithKid(k, AsKid(V.Next(AsCluster(x.KidOf(k)), rs(k), timeout, skipReady, t))) else x
  }

  function Steps(x: Operator, r: TopReplies, rs: Kind -> S.Replies, timeout: Delay, skipReady: bool, ss: seq<Step>): Operator
    decreases |ss|
  {
    if ss == [] then x
    else Steps(Next(x, r, rs, timeout, skipReady, ss[0]), r, rs, timeout, skipReady, ss[1..])
  }

  // One pass of the Watcher under frozen inputs

  lemma OpeningPass(c: Top, r: TopReplies, skipReady: bool)
    requires TopFrozen(c, r) && Opening(c)
    ensures var o := Pass(c, r, skipReady);
      o.own && o.st.conds != map[] && o.st.hash == c.st.hash && o.sent.children == []
  {
    var st := RbacStage(Begin(Watcher, c.gen, c.st), r.rbac);
    assert Body(c, r, skipReady) == TopOutcome(st, Exit(0, false), true, QUIET);
    assert Listed(Watcher, Ready) && Ready in st.conds;
    V.DeferredKeeps(st, Ready, skipReady);
  }

  /** The status of a working pass when it comes to the dbsync job. */
  function AtJob(c: Top, r: TopReplies): Status {
    var st := RbacStage(Begin(Watcher, c.gen, c.st), r.rbac);
    var st1 := Put(Put(Put(Put(st, DBAccountReady, True), DBReady, True), TransportURLReady, True), InputReady, True);
    Put(Put(st1, KeystoneServiceReady, True), ServiceConfigReady, True)
  }

  lemma ToJob(c: Top, r: TopReplies, skipReady: bool)
    requires TopFrozen(c, r) && !Opening(c)
    ensures var h, sent := DbSyncStage(AtJob(c, r), JobHash(c.spec), r.job), QUIET.(prom := !r.promOwn);
      Body(c, r, skipReady) == if h.Halt? then Stop(c, h, sent) else FromApi(c, r, Put(h.st, CronJobReady, True), sent, skipReady)
  {
    var st := RbacStage(Begin(Watcher, c.gen, c.st), r.rbac);
    var st1 := Put(Put(Put(Put(st, DBAccountReady, True), DBReady, True), TransportURLReady, True), InputReady, True);
    assert Body(c, r, skipReady) == FromKeystone(c, r, st1, QUIET.(prom := !r.promOwn), skipReady);
  }

  lemma WaitingPass(c: Top, r: TopReplies, skipReady: bool)
    requires TopFrozen(c, r) && !Opening(c) && r.job.JobRunning?
    ensures var o := Pass(c, r, skipReady);
      o.own && o.st.conds != map[] && o.st.hash == c.st.hash && o.sent.children == []
  {
    ToJob(c, r, skipReady);
    var h := DbSyncStage(AtJob(c, r), JobHash(c.spec), r.job);
    assert h.st == Put(AtJob(c, r), DBSyncReady, False(Info)) && DBSyncReady in h.st.conds;
    V.DeferredKeeps(h.st, DBSyncReady, skipReady);
  }

  lemma ChildKeepsHash(c: Top, r: TopReplies, st: Status, sent: TopSent, skipReady: bool)
    requires TopFrozen(c, r) && r.child(Api, Derive(Api, c.spec)).ChildIs?
    requires r.child(Engine, Derive(Engine, c.spec)).ChildIs? && r.child(Applier, Derive(Applier, c.spec)).ChildIs?
    ensures var o := FromApi(c, r, st, sent, skipReady);
      && o.own == c.own && o.st.hash == st.hash && ExposeServiceReady in o.st.conds
      && o.sent.children == sent.children + TT.InOrder(c)
  {
    var f := Ensuring(c, r, Api, st, skipReady);
    var g := Ensuring(c, r, Engine, Put(f.st, ExposeServiceReady, True), skipReady);
    var h := Ensuring(c, r, Applier, g.st, skipReady);
    assert f.Go? && g.Go? && h.Go?;
    var s1 := AndChild(sent, Api, c);
    var s2 := AndChild(s1, Engine, c);
    var s3 := AndChild(s2, Applier, c);
    assert s3.children == sent.children + TT.InOrder(c);
    assert FromApi(c, r, st, sent, skipReady) == FromRoutes(c, r, f.st, s1, skipReady);
    assert FromRoutes(c, r, f.st, s1, skipReady) == FromEngine(c, r, Put(f.st, ExposeServiceReady, True), s1, skipReady);
    assert FromEngine(c, r, Put(f.st, ExposeServiceReady, True), s1, skipReady) == FromApplier(c, r, g.st, s2, skipReady);
    assert FromApplier(c, r, g.st, s2, skipReady) == Stop(c, FinalStage(h.st), s3);
  }

  lemma WorkingPass(c: Top, r: TopReplies, skipReady: bool)
    requires TopFrozen(c, r) && !Opening(c) && r.job.JobDone?
    requires r.child(Api, Derive(Api, c.spec)).ChildIs?
    requires r.child(Engine, Derive(Engine, c.spec)).ChildIs? && r.child(Applier, Derive(Applier, c.spec)).ChildIs?
    ensures var o := Pass(c, r, skipReady);
      && o.own && o.st.conds != map[] && o.st.hash == Some(JobHash(c.spec))
      && o.sent.children == TT.InOrder(c)
  {
    ToJob(c, r, skipReady);
    var h := DbSyncStage(AtJob(c, r), JobHash(c.spec), r.job);
    ChildKeepsHash(c, r, Put(h.st, CronJobReady, True), QUIET.(prom := !r.promOwn), skipReady);
    V.DeferredKeeps(Body(c, r, skipReady).st, ExposeServiceReady, skipReady);
  }

  // First, the children get their specs

  predicate Settled(kid: Kid, w: WatcherSpec, k: Kind) {
    kid.cr.Some? && kid.cr.value.spec == Derive(k, w)
  }

  predicate AllSettled(x: Operator) {
    && Settled(x.api, x.top.spec, Api) && Settled(x.engine, x.top.spec, Engine)
    && Settled(x.applier, x.top.spec, Applier)
  }

  function JobLeft(x: Operator): nat {
    if JobIsDone(x) then 0 else if x.job == Started then 1 else 2
  }

  function TopMeasure(x: Operator): nat {
    (if Opening(x.top) then 1 else 0) + JobLeft(x) + if AllSettled(x) then 0 else 1
  }

  /** Only the job can make progress. */
  predicate JobAwaited(x: Operator) {
    !Opening(x.top) && JobLeft(x) == 1
  }

  /** What a pass of the Watcher asks for, whatever part of it is written. */
  lemma TopEffect(x: Operator, r: TopReplies, skipReady: bool)
    requires TopFrozen(x.top, r)
    ensures var o, h := Pass(x.top, Answers(x, r), skipReady), Some(JobHash(x.top.spec));
      && o.own && o.st.conds != map[] && (o.st.hash == x.top.st.hash || (o.st.hash == h && JobIsDone(x)))
      && o.sent.children == if !Opening(x.top) && JobIsDone(x) then TT.InOrder(x.top) else []
  {
    var a := Answers(x, r);
    assert TopFrozen(x.top, a);
    if Opening(x.top) {
      OpeningPass(x.top, a, skipReady);
    } else if JobIsDone(x) {
      WorkingPass(x.top, a, skipReady);
    } else {
      WaitingPass(x.top, a, skipReady);
    }
  }

  lemma PatchesAll(o: TopOutcome, c: Top, k: Kind)
    requires k in KIDS && o.sent.children == TT.InOrder(c)
    ensures Patches(o, k)
  {
    var i := if k == Api then 0 else if k == Engine then 1 else 2;
    assert o.sent.children[i].0 == k;
  }

  lemma KidAfterOk(x: Operator, o: TopOutcome, k: Kind, write: bool)
    requires k in KIDS && KidOk(x.KidOf(k), x.top.spec, k)
    ensures var y := KidAfter(x, o, k, write);
      && KidOk(y, x.top.spec, k)
      && (write && Patches(o, k) ==> Settled(y, x.top.spec, k))
  {}

  lemma SettledStays(x: Operator, o: TopOutcome, k: Kind, write: bool)
    requires k in KIDS && Settled(x.KidOf(k), x.top.spec, k)
    ensures KidAfter(x, o, k, write) == x.KidOf(k)
  {
    var kid := x.KidOf(k);
    assert kid.(cr := Some(kid.cr.value)) == kid;
  }

  lemma GivenKept(x: Operator, y: Operator, r: TopReplies, rs: Kind -> S.Replies)
    requires Given(x, r, rs) && y.top == x.top.(own := y.top.own, st := y.top.st)
    requires KidOk(y.api, x.top.spec, Api) && KidOk(y.engine, x.top.spec, Engine) && KidOk(y.applier, x.top.spec, Applier)
    ensures Given(y, r, rs)
  {}

  lemma ReconcileGiven(x: Operator, r: TopReplies, rs: Kind -> S.Replies, skipReady: bool, s: Step)
    requires Given(x, r, rs) && s.Reconcile?
    ensures Given(TopNext(x, r, skipReady, s), r, rs)
  {
    var o := Pass(x.top, Answers(x, r), skipReady);
    KidAfterOk(x, o, Api, s.api);
    KidAfterOk(x, o, Engine, s.engine);
    KidAfterOk(x, o, Applier, s.applier);
    GivenKept(x, TopNext(x, r, skipReady, s), r, rs);
  }

  /** The children's side of a pass: settled ones stay as they are, and a full pass past the job settles
      all. */
  lemma ReconcileKids(x: Operator, r: TopReplies, rs: Kind -> S.Replies, skipReady: bool, s: Step)
    requires Given(x, r, rs) && s.Reconcile?
    ensures var y := TopNext(x, r, skipReady, s);
      && (AllSettled(x) ==> y.api == x.api && y.engine == x.engine && y.applier == x.applier)
      && (s == FULL && !Opening(x.top) && JobIsDone(x) ==> AllSettled(y))
  {
    var o := Pass(x.top, Answers(x, r), skipReady);
    if AllSettled(x) {
      SettledStays(x, o, Api, s.api);
      SettledStays(x, o, Engine, s.engine);
      SettledStays(x, o, Applier, s.applier);
    }
    if s == FULL && !Opening(x.top) && JobIsDone(x) {
      FullSettles(x, r, rs, skipReady);
    }
  }

  lemma FullSettles(x: Operator, r: TopReplies, rs: Kind -> S.Replies, skipReady: bool)
    requires Given(x, r, rs) && !Opening(x.top) && JobIsDone(x)
    ensures AllSettled(TopNext(x, r, skipReady, FULL))
  {
    var o := Pass(x.top, Answers(x, r), skipReady);
    TopEffect(x, r, skipReady);
    PatchesAll(o, x.top, Api);
    PatchesAll(o, x.top, Engine);
    PatchesAll(o, x.top, Applier);
    KidAfterOk(x, o, Api, true);
    KidAfterOk(x, o, Engine, true);
    KidAfterOk(x, o, Applier, true);
  }

  /** The Watcher's side: what is registered, and what of the job is done, stays. */
  lemma ReconcileTop(x: Operator, r: TopReplies, skipReady: bool, s: Step)
    requires TopFrozen(x.top, r) && s.Reconcile?
    ensures var y := TopNext(x, r, skipReady, s);
      && (!Opening(x.top) ==> !Opening(y.top)) && (s == FULL ==> !Opening(y.top))
      && JobLeft(y) <= JobLeft(x)
      && (s == FULL && !Opening(x.top) && JobLeft(x) == 2 ==> JobLeft(y) == 1)
      && (!Opening(x.top) && JobLeft(x) == 1 ==> JobLeft(y) == 1)
  {
    TopEffect(x, r, skipReady);
  }

  lemma ReconcileKeeps(x: Operator, r: TopReplies, rs: Kind -> S.Replies, skipReady: bool, s: Step)
    requires Given(x, r, rs) && s.Reconcile?
    ensures var y := TopNext(x, r, skipReady, s);
      && y.top.spec == x.top.spec && TopMeasure(y) <= TopMeasure(x)
      && (s == FULL && TopMeasure(x) > 0 && !JobAwaited(x) ==> TopMeasure(y) < TopMeasure(x))
      && (TopMeasure(y) == TopMeasure(x) ==> JobAwaited(y) == JobAwaited(x))
  {
    ReconcileTop(x, r, skipReady, s);
    ReconcileKids(x, r, rs, skipReady, s);
  }

  lemma ChildStepKeeps(c: V.Cluster, r: S.Replies, timeout: Delay, skipReady: bool, t: V.Step)
    ensures var y := V.Next(c, r, timeout, skipReady, t); y.c == c.c.(own := y.c.own, st := y.c.st)
  {}

  lemma KidStepKeeps(x: Operator, r: TopReplies, rs: Kind -> S.Replies, timeout: Delay, skipReady: bool, k: Kind, t: V.Step)
    requires Given(x, r, rs)
    ensures var y := Next(x, r, rs, timeout, skipReady, KidStep(k, t));
      && y.top == x.top && y.job == x.job && Given(y, r, rs) && AllSettled(y) == AllSettled(x)
  {
    if k != Watcher && x.KidOf(k).cr.Some? {
      ChildStepKeeps(AsCluster(x.KidOf(k)), rs(k), timeout, skipReady, t);
      var y := x.WithKid(k, AsKid(V.Next(AsCluster(x.KidOf(k)), rs(k), timeout, skipReady, t)));
      KidsAlike(x, y, k);
      GivenKept(x, y, r, rs);
    }
  }

  /** Another state of one child, with the same CR in it. */
  lemma KidsAlike(x: Operator, y: Operator, k: Kind)
    requires k != Watcher && y == x.WithKid(k, y.KidOf(k)) && x.KidOf(k).cr.Some? && y.KidOf(k).cr.Some?
    requires var c, d := x.KidOf(k).cr.value, y.KidOf(k).cr.value; d == c.(own := d.own, st := d.st)
    ensures y.top == x.top && y.job == x.job && AllSettled(y) == AllSettled(x)
    ensures forall j :: j in KIDS && KidOk(x.KidOf(j), x.top.spec, j) ==> KidOk(y.KidOf(j), x.top.spec, j)
  {}

  lemma NextKeeps(x: Operator, r: TopReplies, rs: Kind -> S.Replies, timeout: Delay, skipReady: bool, s: Step)
    requires Given(x, r, rs)
    ensures var y := Next(x, r, rs, timeout, skipReady, s);
      && y.top.spec == x.top.spec && Given(y, r, rs) && TopMeasure(y) <= TopMeasure(x)
      && (s == FULL && TopMeasure(x) > 0 && !JobAwaited(x) ==> TopMeasure(y) < TopMeasure(x))
      && (s == JobMove && JobAwaited(x) ==> TopMeasure(y) < TopMeasure(x))
      && (TopMeasure(y) == TopMeasure(x) ==> JobAwaited(y) == JobAwaited(x))
  {
    match s
    case Reconcile(_, _, _, _, _, _, _) =>
      ReconcileKeeps(x, r, rs, skipReady, s);
      ReconcileGiven(x, r, rs, skipReady, s);
    case JobMove =>
    case KidStep(k, t) => KidStepKeeps(x, r, rs, timeout, skipReady, k, t);
  }

  lemma {:induction false} StepsKeep(x: Operator, r: TopReplies, rs: Kind -> S.Replies, timeout: Delay,
                                     skipReady: bool, ss: seq<Step>)
    requires Given(x, r, rs)
    ensures var y := Steps(x, r, rs, timeout, skipReady, ss);
      && y.top.spec == x.top.spec && Given(y, r, rs) && TopMeasure(y) <= TopMeasure(x)
      && (TopMeasure(y) == TopMeasure(x) ==>
            (FULL in ss ==> TopMeasure(x) == 0 || JobAwaited(x)) && (JobMove in ss ==> !JobAwaited(x)))
    decreases |ss|
  {
    if ss != [] {
      NextKeeps(x, r, rs, timeout, skipReady, ss[0]);
      StepsKeep(Next(x, r, rs, timeout, skipReady, ss[0]), r, rs, timeout, skipReady, ss[1..]);
    }
  }

  lemma {:induction false} StepsAppend(x: Operator, r: TopReplies, rs: Kind -> S.Replies, timeout: Delay, skipReady: bool,
                                       ss: seq<Step>, ts: seq<Step>)
    ensures Steps(x, r, rs, timeout, skipReady, ss + ts) ==
            Steps(Steps(x, r, rs, timeout, skipReady, ss), r, rs, timeout, skipReady, ts)
    decreases |ss|
  {
    if ss == [] {
      assert ss + ts == ts;
    } else {
      assert (ss + ts)[1..] == ss[1..] + ts;
      StepsAppend(Next(x, r, rs, timeout, skipReady, ss[0]), r, rs, timeout, skipReady, ss[1..], ts);
    }
  }

  function Flatten(parts: seq<seq<Step>>): seq<Step> {
    if parts == [] then [] else parts[0] + Flatten(parts[1..])
  }

  /** Everybody has a turn, in any order and among any number of crashed passes. */
  predicate Turns(ss: seq<Step>) {
    && FULL in ss && JobMove in ss
    && (forall k | k in KIDS :: KidStep(k, V.FULL) in ss && KidStep(k, V.StsMove) in ss)
  }

  lemma {:induction false} SpecsArrive(x: Operator, r: TopReplies, rs: Kind -> S.Replies, timeout: Delay, skipReady: bool,
                                       parts: seq<seq<Step>>)
    requires Given(x, r, rs) && |parts| >= TopMeasure(x)
    requires forall ss :: ss in parts ==> Turns(ss)
    ensures var y := Steps(x, r, rs, timeout, skipReady, Flatten(parts));
      y.top.spec == x.top.spec && Given(y, r, rs) && TopMeasure(y) == 0
    decreases |parts|
  {
    StepsKeep(x, r, rs, timeout, skipReady, Flatten(parts));
    if TopMeasure(x) > 0 {
      assert Turns(parts[0]);
      StepsKeep(x, r, rs, timeout, skipReady, parts[0]);
      StepsAppend(x, r, rs, timeout, skipReady, parts[0], Flatten(parts[1..]));
      SpecsArrive(Steps(x, r, rs, timeout, skipReady, parts[0]), r, rs, timeout, skipReady, parts[1..]);
    }
  }

  // Then, each child converges on its own

  lemma GivenKid(x: Operator, r: TopReplies, rs: Kind -> S.Replies, k: Kind)
    requires Given(x, r, rs) && k in KIDS
    ensures V.Frozen(NewKid(x.top.spec, k), rs(k)) && KidOk(x.KidOf(k), x.top.spec, k)
  {}

  lemma SettledIsFrozen(x: Operator, r: TopReplies, rs: Kind -> S.Replies, k: Kind)
    requires Given(x, r, rs) && k in KIDS && Settled(x.KidOf(k), x.top.spec, k)
    ensures V.Frozen(x.KidOf(k).cr.value, rs(k))
  {
    var c := x.KidOf(k).cr.value;
    GivenKid(x, r, rs, k);
    SameFrozen(NewKid(x.top.spec, k), c, rs(k));
  }

  lemma SameFrozen(c: S.Sub, d: S.Sub, r: S.Replies)
    requires V.Frozen(c, r) && d == c.(gen := d.gen, own := d.own, st := d.st)
    ensures V.Frozen(d, r)
  {}

  /** Everything is settled and the job is done. */
  predicate Ripe(x: Operator, r: TopReplies, rs: Kind -> S.Replies) {
    match TopMeasure(x)
    case 0 => Given(x, r, rs)
    case _ => false
  }

  lemma RipeIsSettled(x: Operator, r: TopReplies, rs: Kind -> S.Replies)
    requires Ripe(x, r, rs)
    ensures Given(x, r, rs) && AllSettled(x)
  {}

  lemma RipeKid(x: Operator, r: TopReplies, rs: Kind -> S.Replies, k: Kind)
    requires Ripe(x, r, rs) && k in KIDS
    ensures Settled(x.KidOf(k), x.top.spec, k) && V.Frozen(x.KidOf(k).cr.value, rs(k))
  {
    RipeIsSettled(x, r, rs);
    SettledKid(x, k);
    SettledIsFrozen(x, r, rs, k);
  }

  /** The steps that a child's cluster sees. */
  function Seen(ss: seq<Step>, k: Kind): seq<V.Step> {
    if ss == [] then []
    else if ss[0].KidStep? && ss[0].k == k then [ss[0].s] + Seen(ss[1..], k)
    else Seen(ss[1..], k)
  }

  lemma RipeStays(x: Operator, r: TopReplies, rs: Kind -> S.Replies, timeout: Delay, skipReady: bool, s: Step)
    requires Ripe(x, r, rs)
    ensures var y := Next(x, r, rs, timeout, skipReady, s); Ripe(y, r, rs) && y.top.spec == x.top.spec
  {
    NextKeeps(x, r, rs, timeout, skipReady, s);
  }

  lemma OtherKid(x: Operator, k: Kind, j: Kind, kid: Kid)
    requires k in KIDS && j in KIDS && k != j
    ensures x.WithKid(j, kid).KidOf(k) == x.KidOf(k) && x.WithKid(j, kid).KidOf(j) == kid
  {}

  lemma OthersStay(x: Operator, r: TopReplies, rs: Kind -> S.Replies, timeout: Delay, skipReady: bool, s: Step, k: Kind)
    requires Given(x, r, rs) && AllSettled(x) && k in KIDS && !(s.KidStep? && s.k == k)
    ensures Next(x, r, rs, timeout, skipReady, s).KidOf(k) == x.KidOf(k)
  {
    match s
    case Reconcile(_, _, _, _, _, _, _) => ReconcileKids(x, r, rs, skipReady, s);
    case JobMove =>
    case KidStep(j, t) =>
      if j != Watcher && x.KidOf(j).cr.Some? {
        OtherKid(x, k, j, AsKid(V.Next(AsCluster(x.KidOf(j)), rs(j), timeout, skipReady, t)));
      }
  }

  lemma OwnStep(x: Operator, r: TopReplies, rs: Kind -> S.Replies, timeout: Delay, skipReady: bool, k: Kind, t: V.Step)
    requires k in KIDS && x.KidOf(k).cr.Some?
    ensures var y := Next(x, r, rs, timeout, skipReady, KidStep(k, t));
      y.KidOf(k) == AsKid(V.Next(AsCluster(x.KidOf(k)), rs(k), timeout, skipReady, t))
  {}

  /** What a step means to a settled child. */
  lemma RipeStep(x: Operator, r: TopReplies, rs: Kind -> S.Replies, timeout: Delay, skipReady: bool, s: Step, k: Kind)
    requires Given(x, r, rs) && AllSettled(x) && k in KIDS
    ensures var y := Next(x, r, rs, timeout, skipReady, s);
      && x.KidOf(k).cr.Some? && y.KidOf(k).cr.Some?
      && AsCluster(y.KidOf(k)) ==
           if s.KidStep? && s.k == k then V.Next(AsCluster(x.KidOf(k)), rs(k), timeout, skipReady, s.s)
           else AsCluster(x.KidOf(k))
  {
    SettledKid(x, k);
    if s.KidStep? && s.k == k {
      OwnStep(x, r, rs, timeout, skipReady, k, s.s);
    } else {
      OthersStay(x, r, rs, timeout, skipReady, s, k);
    }
  }

  lemma SettledKid(x: Operator, k: Kind)
    requires AllSettled(x) && k in KIDS
    ensures Settled(x.KidOf(k), x.top.spec, k)
  {}

  lemma {:induction false} KidAlong(x: Operator, r: TopReplies, rs: Kind -> S.Replies, timeout: Delay, skipReady: bool,
                                    ss: seq<Step>, k: Kind)
    requires Ripe(x, r, rs) && k in KIDS
    ensures var y := Steps(x, r, rs, timeout, skipReady, ss);
      && Ripe(y, r, rs) && y.top.spec == x.top.spec && x.KidOf(k).cr.Some? && y.KidOf(k).cr.Some?
      && AsCluster(y.KidOf(k)) == V.Steps(AsCluster(x.KidOf(k)), rs(k), timeout, skipReady, Seen(ss, k))
    decreases |ss|
  {
    RipeKid(x, r, rs, k);
    if ss != [] {
      RipeStays(x, r, rs, timeout, skipReady, ss[0]);
      RipeStep(x, r, rs, timeout, skipReady, ss[0], k);
      var y := Next(x, r, rs, timeout, skipReady, ss[0]);
      KidAlong(y, r, rs, timeout, skipReady, ss[1..], k);
      if ss[0].KidStep? && ss[0].k == k {
        assert Seen(ss, k)[0] == ss[0].s && Seen(ss, k)[1..] == Seen(ss[1..], k);
      }
    }
  }

  lemma {:induction false} SeenAppend(ss: seq<Step>, ts: seq<Step>, k: Kind)
    ensures Seen(ss + ts, k) == Seen(ss, k) + Seen(ts, k)
  {
    if ss == [] {
      assert ss + ts == ts;
    } else {
      assert (ss + ts)[1..] == ss[1..] + ts;
      SeenAppend(ss[1..], ts, k);
    }
  }

  lemma {:induction false} SeenHas(ss: seq<Step>, k: Kind, t: V.Step)
    requires KidStep(k, t) in ss
    ensures t in Seen(ss, k)
  {
    if ss[0] != KidStep(k, t) {
      assert KidStep(k, t) in ss[1..];
      SeenHas(ss[1..], k, t);
    }
  }

  function SeenParts(parts: seq<seq<Step>>, k: Kind): seq<seq<V.Step>> {
    if parts == [] then [] else [Seen(parts[0], k)] + SeenParts(parts[1..], k)
  }

  lemma {:induction false} SeenFlatten(parts: seq<seq<Step>>, k: Kind)
    requires k in KIDS && forall ss :: ss in parts ==> Turns(ss)
    ensures Seen(Flatten(parts), k) == V.Flatten(SeenParts(parts, k)) && |SeenParts(parts, k)| == |parts|
    ensures forall ts :: ts in SeenParts(parts, k) ==> V.Turns(ts)
  {
    if parts != [] {
      assert Turns(parts[0]);
      SeenHas(parts[0], k, V.FULL);
      SeenHas(parts[0], k, V.StsMove);
      SeenAppend(parts[0], Flatten(parts[1..]), k);
      SeenFlatten(parts[1..], k);
      assert SeenParts(parts, k)[1..] == SeenParts(parts[1..], k);
    }
  }

  predicate KidFinal(x: Operator, rs: Kind -> S.Replies, k: Kind) {
    match x.KidOf(k).cr
    case None => false
    case Some(c) => V.Frozen(c, rs(k)) && V.Final(AsCluster(x.KidOf(k)), rs(k))
  }

  function KidMeasure(x: Operator, rs: Kind -> S.Replies, k: Kind): nat {
    var kid := x.KidOf(k);
    if kid.cr.Some? && V.Frozen(kid.cr.value, rs(k)) then V.Measure(AsCluster(kid), rs(k)) else 0
  }

  lemma KidConverges(x: Operator, r: TopReplies, rs: Kind -> S.Replies, timeout: Delay, skipReady: bool,
                     parts: seq<seq<Step>>, k: Kind)
    requires Ripe(x, r, rs) && k in KIDS && |parts| >= KidMeasure(x, rs, k)
    requires forall ss :: ss in parts ==> Turns(ss)
    ensures var y := Steps(x, r, rs, timeout, skipReady, Flatten(parts)); Ripe(y, r, rs) && KidFinal(y, rs, k)
  {
    RipeKid(x, r, rs, k);
    KidAlong(x, r, rs, timeout, skipReady, Flatten(parts), k);
    SeenFlatten(parts, k);
    V.Converges(AsCluster(x.KidOf(k)), rs(k), timeout, skipReady, SeenParts(parts, k));
  }

  // Then, the Watcher becomes Ready

  predicate AllFinal(x: Operator, r: TopReplies, rs: Kind -> S.Replies) {
    match TopMeasure(x)
    case 0 => Given(x, r, rs) && KidFinal(x, rs, Api) && KidFinal(x, rs, Engine) && KidFinal(x, rs, Applier)
    case _ => false
  }

  lemma FinalMirrors(x: V.Cluster, r: S.Replies, skipReady: bool)
    requires V.Frozen(x.c, r) && V.Final(x, r)
    ensures ChildState(x.c.gen, x.c.st, skipReady) == Some(True)
  {
    var k := x.c.kind;
    assert x.c.st == V.DoneStatus(x.c, r);
    MirrorTrue(V.AllTrue(k), skipReady);
    assert Listed(k, InputReady) && InputReady in Conditions.Seen(V.AllTrue(k), skipReady);
  }

  lemma AnswersFor(x: Operator, r: TopReplies, k: Kind)
    requires k in KIDS && Settled(x.KidOf(k), x.top.spec, k)
    ensures var c := x.KidOf(k).cr.value; Answers(x, r).child(k, Derive(k, x.top.spec)) == ChildIs(c.gen, c.st)
  {}

  /** A final child, patched with the spec it has, mirrors True. */
  lemma FinalKidIsTrue(x: Operator, r: TopReplies, rs: Kind -> S.Replies, k: Kind, skipReady: bool)
    requires k in KIDS && Settled(x.KidOf(k), x.top.spec, k) && KidFinal(x, rs, k)
    ensures TT.ChildTrue(x.top, Answers(x, r), k, skipReady)
  {
    AnswersFor(x, r, k);
    FinalMirrors(AsCluster(x.KidOf(k)), rs(k), skipReady);
  }

  /** Apart from its children, a pass in a ripe cluster finds everything good. */
  lemma RipeRest(x: Operator, r: TopReplies, skipReady: bool)
    requires TopFrozen(x.top, r) && TopMeasure(x) == 0
    ensures var a := Answers(x, r);
      && TT.Working(x.top, a) && TT.InputsGood(x.top, a) && a.subSecretOk
      && (TT.ChildrenTrue(x.top, a, skipReady) ==> TT.RestGood(x.top, a, skipReady))
  {}

  lemma FinalKidsAreTrue(x: Operator, r: TopReplies, rs: Kind -> S.Replies, skipReady: bool)
    requires AllFinal(x, r, rs) && r.routes.RoutesOk?
    ensures TT.ChildrenTrue(x.top, Answers(x, r), skipReady)
  {
    FinalKidIsTrue(x, r, rs, Api, skipReady);
    FinalKidIsTrue(x, r, rs, Engine, skipReady);
    FinalKidIsTrue(x, r, rs, Applier, skipReady);
  }

  lemma FinalPassIsReady(x: Operator, r: TopReplies, rs: Kind -> S.Replies, skipReady: bool)
    requires AllFinal(x, r, rs)
    ensures Is(Pass(x.top, Answers(x, r), skipReady).st.conds, Ready)
  {
    RipeRest(x, r, skipReady);
    FinalKidsAreTrue(x, r, rs, skipReady);
    TT.TopReadyIff(x.top, Answers(x, r), skipReady);
  }

  lemma FinalStays(x: Operator, r: TopReplies, rs: Kind -> S.Replies, timeout: Delay, skipReady: bool, s: Step, k: Kind)
    requires Given(x, r, rs) && AllSettled(x) && k in KIDS && KidFinal(x, rs, k)
    ensures KidFinal(Next(x, r, rs, timeout, skipReady, s), rs, k)
  {
    RipeStep(x, r, rs, timeout, skipReady, s, k);
    if s.KidStep? && s.k == k {
      V.NextKeeps(AsCluster(x.KidOf(k)), rs(k), timeout, skipReady, s.s);
    }
  }

  lemma StatusAfterPass(x: Operator, r: TopReplies, skipReady: bool, s: Step)
    requires s.Reconcile?
    ensures TopNext(x, r, skipReady, s).top.st == if s.status then Pass(x.top, Answers(x, r), skipReady).st else x.top.st
  {}

  lemma StatusNext(x: Operator, r: TopReplies, rs: Kind -> S.Replies, timeout: Delay, skipReady: bool, s: Step)
    ensures var y := Next(x, r, rs, timeout, skipReady, s);
      && (y.top.st == x.top.st || y.top.st == Pass(x.top, Answers(x, r), skipReady).st)
      && (s == FULL ==> y.top.st == Pass(x.top, Answers(x, r), skipReady).st)
  {
    match s
    case Reconcile(_, _, _, _, _, _, _) => StatusAfterPass(x, r, skipReady, s);
    case JobMove =>
    case KidStep(k, t) => KidStepTop(x, r, rs, timeout, skipReady, k, t);
  }

  lemma KidStepTop(x: Operator, r: TopReplies, rs: Kind -> S.Replies, timeout: Delay, skipReady: bool, k: Kind, t: V.Step)
    ensures Next(x, r, rs, timeout, skipReady, KidStep(k, t)).top == x.top
  {}

  lemma FinalStep(x: Operator, r: TopReplies, rs: Kind -> S.Replies, timeout: Delay, skipReady: bool, s: Step)
    requires AllFinal(x, r, rs)
    ensures AllFinal(Next(x, r, rs, timeout, skipReady, s), r, rs)
  {
    RipeStays(x, r, rs, timeout, skipReady, s);
    FinalStays(x, r, rs, timeout, skipReady, s, Api);
    FinalStays(x, r, rs, timeout, skipReady, s, Engine);
    FinalStays(x, r, rs, timeout, skipReady, s, Applier);
  }

  /** Once every child is final, the first full pass makes the Watcher Ready, and Ready it stays. */
  lemma {:induction false} ReadyStays(x: Operator, r: TopReplies, rs: Kind -> S.Replies, timeout: Delay,
                                      skipReady: bool, ss: seq<Step>)
    requires AllFinal(x, r, rs)
    ensures var y := Steps(x, r, rs, timeout, skipReady, ss);
      && AllFinal(y, r, rs)
      && (FULL in ss || Is(x.top.st.conds, Ready) ==> Is(y.top.st.conds, Ready))
    decreases |ss|
  {
    if ss != [] {
      FinalStep(x, r, rs, timeout, skipReady, ss[0]);
      FinalPassIsReady(x, r, rs, skipReady);
      StatusNext(x, r, rs, timeout, skipReady, ss[0]);
      ReadyStays(Next(x, r, rs, timeout, skipReady, ss[0]), r, rs, timeout, skipReady, ss[1..]);
    }
  }

  /** The operator converges: under a fair schedule, one that first has as many stretches giving
      everybody a turn as the Watcher's own measure says, then as many as the measures of the children
      it has written by then say, the first full pass of the Watcher after that makes it Ready, with
      all children final, and it is Ready at every later moment. */
  lemma OperatorConverges(x: Operator, r: TopReplies, rs: Kind -> S.Replies, timeout: Delay, skipReady: bool,
                          first: seq<seq<Step>>, second: seq<seq<Step>>, last: seq<Step>)
    requires Given(x, r, rs) && forall ss :: ss in first + second ==> Turns(ss)
    requires |first| >= TopMeasure(x)
    requires forall k | k in KIDS ::
               |second| >= KidMeasure(Steps(x, r, rs, timeout, skipReady, Flatten(first)), rs, k)
    requires FULL in last
    ensures var z := Steps(x, r, rs, timeout, skipReady, Flatten(first) + Flatten(second) + last);
      AllFinal(z, r, rs) && Is(z.top.st.conds, Ready)
  {
    assert forall ss :: ss in first ==> ss in first + second;
    assert forall ss :: ss in second ==> ss in first + second;
    SpecsArrive(x, r, rs, timeout, skipReady, first);
    var y := Steps(x, r, rs, timeout, skipReady, Flatten(first));
    KidConverges(y, r, rs, timeout, skipReady, second, Api);
    KidConverges(y, r, rs, timeout, skipReady, second, Engine);
    KidConverges(y, r, rs, timeout, skipReady, second, Applier);
    StepsAppend(x, r, rs, timeout, skipReady, Flatten(first), Flatten(second));
    StepsAppend(x, r, rs, timeout, skipReady, Flatten(first) + Flatten(second), last);
    ReadyStays(Steps(y, r, rs, timeout, skipReady, Flatten(second)), r, rs, timeout, skipReady, last);
  }
}
