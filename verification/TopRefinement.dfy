/** The Watcher's pass, too: undisturbed, the interleaved steps end in the very status that the
    sequential pass computes. */
module TopRefinement {
  import opened Base
  import opened Conditions
  import opened Resources
  import opened Stages
  import opened World
  import T = TopPass

  /** The steps of one pass, one after the other. */
  function Does(w: World, acts: seq<TopAct>): World
    decreases |acts|
  {
    if acts == [] then w else Does(TopStep(w, acts[0]), acts[1..])
  }

  predicate Stands(w: World, c: T.Top, stage: Stage, st: Status) {
    && At(w, Watcher, stage) && w.pass[Watcher].st == st && w.pass[Watcher].snap.spec == Parent(c.spec)
  }

  predicate Ended(v: World, st: Status) {
    Watcher in v.pass && v.pass[Watcher].pc == Closing(Keep, FromWork, false) && v.pass[Watcher].st == st
  }

  /** Where a step with flow f leaves the pass. */
  predicate Lands(v: World, c: T.Top, f: Flow, next: Stage) {
    match f
    case Go(st) => Stands(v, c, next, st)
    case Halt(st, _) => Ended(v, st)
  }

  lemma {:induction false} EndedStays(w: World, acts: seq<TopAct>)
    requires Watcher in w.pass && w.pass[Watcher].pc.Closing?
    ensures Does(w, acts) == w
    decreases |acts|
  {
    if acts != [] {
      ClosedStays(w, acts[0]);
      EndedStays(w, acts[1..]);
    }
  }

  lemma ClosedStays(w: World, a: TopAct)
    requires Watcher in w.pass && w.pass[Watcher].pc.Closing?
    ensures TopStep(w, a) == w
  {}

  lemma DoesCons(w: World, a: TopAct, acts: seq<TopAct>)
    ensures Does(w, [a] + acts) == Does(TopStep(w, a), acts)
  {
    assert ([a] + acts)[1..] == acts;
  }

  /** Nothing but passes changed. */
  predicate OnlyPass(w: World, v: World) {
    v.cr == w.cr && v.obj == w.obj && v.jobs == w.jobs && v.rev == w.rev
  }

  lemma LocalLands(w: World, c: T.Top, stage: Stage, st: Status, f: Status -> Flow, next: Stage)
    requires Stands(w, c, stage, st)
    ensures var v := Local(w, Watcher, stage, f, next); Lands(v, c, f(st), next) && OnlyPass(w, v)
  {}

  // Replies that tell the truth about the cluster

  predicate ChildTruth(w: World, c: T.Top, r: T.TopReplies, k: Kind) {
    match r.child(k, Derive(k, c.spec))
    case ChildFailed => true
    case ChildIs(gen, status) =>
      PatchedChild(w, k, Derive(k, c.spec)).gen == gen && PatchedChild(w, k, Derive(k, c.spec)).status == status
  }

  predicate JobTruth(w: World, recorded: Option<Digest>, h: Digest, j: JobReply) {
    match j
    case JobRunning(_) => recorded != Some(h) && (h !in w.jobs || w.jobs[h].Running?)
    case JobFailed => recorded != Some(h) && h in w.jobs && w.jobs[h].Broken?
    case JobDone => recorded == Some(h) || (h in w.jobs && w.jobs[h].Complete?)
  }

  predicate PromTruth(w: World, c: T.Top, r: T.TopReplies) {
    && (T.PromRead(r).Got? ==> Prometheus in w.obj)
    && (Prometheus in w.obj ==> w.obj[Prometheus].rv <= w.rev && r.promOwn == (Own(Watcher) in w.obj[Prometheus].fins)
                                && (r.promUpdateOk ==> !w.obj[Prometheus].deleting))
  }

  predicate KeystoneTruth(w: World, r: T.TopReplies) {
    r.keystone.ObjectIs? ==> Register(w, Watcher, KeystoneService, {}).Some?
  }

  predicate ChildrenTruth(w: World, c: T.Top, r: T.TopReplies) {
    ChildTruth(w, c, r, Api) && ChildTruth(w, c, r, Engine) && ChildTruth(w, c, r, Applier)
  }

  // Children

  function EnsureAct(c: T.Top, r: T.TopReplies, k: Kind, skipReady: bool): TopAct {
    var ok := r.child(k, Derive(k, c.spec)).ChildIs?;
    DoEnsure(k, Write(ok, ok), skipReady)
  }

  lemma EnsuredLands(w: World, c: T.Top, k: Kind, st: Status, child: CR, ok: bool, skipReady: bool)
    requires k != Watcher && Stands(w, c, Ensure(k), st)
    ensures var f := EnsureStage(k, st, ok, ChildState(child.gen, child.status, skipReady));
      Lands(SetPass(w, Watcher, Ensured(k, w.pass[Watcher], c.spec, child, ok, skipReady)), c, f, AfterEnsure(k))
  {}

  lemma EnsureLands(w: World, c: T.Top, r: T.TopReplies, k: Kind, st: Status, skipReady: bool)
    requires k != Watcher && Stands(w, c, Ensure(k), st) && ChildTruth(w, c, r, k)
    ensures var v := TopStep(w, EnsureAct(c, r, k, skipReady));
      && Lands(v, c, T.Ensuring(c, r, k, st, skipReady), AfterEnsure(k))
      && (forall j :: j != k ==> Look(v.cr, j) == Look(w.cr, j))
  {
    var child := PatchedChild(w, k, Derive(k, c.spec));
    var ok := r.child(k, Derive(k, c.spec)).ChildIs?;
    var u := if ok then PutCR(w, k, Some(child)) else w;
    assert Stands(u, c, Ensure(k), st);
    EnsuredLands(u, c, k, st, child, ok, skipReady);
    assert TopStep(w, EnsureAct(c, r, k, skipReady)) ==
           SetPass(u, Watcher, Ensured(k, w.pass[Watcher], c.spec, child, ok, skipReady));
    assert T.Ensuring(c, r, k, st, skipReady) ==
           EnsureStage(k, st, ok, if ok then ChildState(child.gen, child.status, skipReady) else None);
    if !ok {
      assert T.Ensuring(c, r, k, st, skipReady) ==
             EnsureStage(k, st, ok, ChildState(child.gen, child.status, skipReady));
    }
  }

  lemma TruthKept(w: World, v: World, c: T.Top, r: T.TopReplies, k: Kind)
    requires ChildTruth(w, c, r, k) && Look(v.cr, k) == Look(w.cr, k)
    ensures ChildTruth(v, c, r, k)
  {
    assert k in v.cr <==> k in w.cr;
  }

  function ApplierActs(c: T.Top, r: T.TopReplies, skipReady: bool): seq<TopAct> {
    [EnsureAct(c, r, Applier, skipReady), DoTopFinish(r.cleanupOk)]
  }

  lemma TopFinishDoes(w: World, c: T.Top, st: Status, ok: bool)
    requires Stands(w, c, TopFinish, st)
    ensures Ended(Does(w, [DoTopFinish(ok)]), TopFinalStage(st, ok).st)
  {
    LocalLands(w, c, TopFinish, st, (st: Status) => TopFinalStage(st, ok), TopFinish);
    assert [DoTopFinish(ok)] == [DoTopFinish(ok)] + [];
    DoesCons(w, DoTopFinish(ok), []);
  }

  lemma ApplierDoes(w: World, c: T.Top, r: T.TopReplies, st: Status, sent: T.TopSent, skipReady: bool)
    requires Stands(w, c, Ensure(Applier), st) && ChildTruth(w, c, r, Applier)
    ensures Ended(Does(w, ApplierActs(c, r, skipReady)), T.FromApplier(c, r, st, sent, skipReady).st)
  {
    var a, f := EnsureAct(c, r, Applier, skipReady), T.Ensuring(c, r, Applier, st, skipReady);
    var v, rest := TopStep(w, a), [DoTopFinish(r.cleanupOk)];
    EnsureLands(w, c, r, Applier, st, skipReady);
    assert ApplierActs(c, r, skipReady) == [a] + rest;
    DoesCons(w, a, rest);
    if f.Halt? {
      EndedStays(v, rest);
    } else {
      TopFinishDoes(v, c, f.st, r.cleanupOk);
    }
  }

  function EngineActs(c: T.Top, r: T.TopReplies, skipReady: bool): seq<TopAct> {
    [EnsureAct(c, r, Engine, skipReady)] + ApplierActs(c, r, skipReady)
  }

  lemma EngineDoes(w: World, c: T.Top, r: T.TopReplies, st: Status, sent: T.TopSent, skipReady: bool)
    requires Stands(w, c, Ensure(Engine), st) && ChildTruth(w, c, r, Engine) && ChildTruth(w, c, r, Applier)
    ensures Ended(Does(w, EngineActs(c, r, skipReady)), T.FromEngine(c, r, st, sent, skipReady).st)
  {
    var a, f := EnsureAct(c, r, Engine, skipReady), T.Ensuring(c, r, Engine, st, skipReady);
    var v := TopStep(w, a);
    EnsureLands(w, c, r, Engine, st, skipReady);
    DoesCons(w, a, ApplierActs(c, r, skipReady));
    if f.Halt? {
      EndedStays(v, ApplierActs(c, r, skipReady));
    } else {
      TruthKept(w, v, c, r, Applier);
      ApplierDoes(v, c, r, f.st, T.AndChild(sent, Engine, c), skipReady);
    }
  }

  function ApiActs(c: T.Top, r: T.TopReplies, skipReady: bool): seq<TopAct> {
    [EnsureAct(c, r, Api, skipReady)] + ([DoExposeRoutes(r.routes)] + EngineActs(c, r, skipReady))
  }

  lemma ApiDoes(w: World, c: T.Top, r: T.TopReplies, st: Status, sent: T.TopSent, skipReady: bool)
    requires Stands(w, c, Ensure(Api), st) && ChildrenTruth(w, c, r)
    ensures Ended(Does(w, ApiActs(c, r, skipReady)), T.FromApi(c, r, st, sent, skipReady).st)
  {
    var a, f, rest := EnsureAct(c, r, Api, skipReady), T.Ensuring(c, r, Api, st, skipReady), EngineActs(c, r, skipReady);
    var v, b := TopStep(w, a), DoExposeRoutes(r.routes);
    EnsureLands(w, c, r, Api, st, skipReady);
    DoesCons(w, a, [b] + rest);
    if f.Halt? {
      EndedStays(v, [b] + rest);
    } else {
      TruthKept(w, v, c, r, Engine);
      TruthKept(w, v, c, r, Applier);
      RoutesDoes(v, c, r, f.st, T.AndChild(sent, Api, c), skipReady);
    }
  }

  lemma RoutesDoes(w: World, c: T.Top, r: T.TopReplies, st: Status, sent: T.TopSent, skipReady: bool)
    requires Stands(w, c, ExposeRoutes, st) && ChildTruth(w, c, r, Engine) && ChildTruth(w, c, r, Applier)
    ensures Ended(Does(w, [DoExposeRoutes(r.routes)] + EngineActs(c, r, skipReady)), T.FromRoutes(c, r, st, sent, skipReady).st)
  {
    var b, rest := DoExposeRoutes(r.routes), EngineActs(c, r, skipReady);
    var v, g := TopStep(w, b), ExposeRoutesStage(st, r.routes);
    LocalLands(w, c, ExposeRoutes, st, (st: Status) => ExposeRoutesStage(st, r.routes), Ensure(Engine));
    DoesCons(w, b, rest);
    if g.Halt? {
      EndedStays(v, rest);
    } else {
      TruthKept(w, v, c, r, Engine);
      TruthKept(w, v, c, r, Applier);
      EngineDoes(v, c, r, g.st, sent, skipReady);
    }
  }

  // From the inputs to the dbsync job

  function After(r: T.TopReplies): Delay {
    if r.job.JobRunning? then r.job.after else 1
  }

  function JobActs(c: T.Top, r: T.TopReplies, skipReady: bool): seq<TopAct> {
    [DoDbSync(After(r))] + ([DoCron(r.cronOk)] + ApiActs(c, r, skipReady))
  }

  lemma CronDoes(w: World, c: T.Top, r: T.TopReplies, st: Status, sent: T.TopSent, skipReady: bool)
    requires Stands(w, c, Cron, st) && ChildrenTruth(w, c, r)
    ensures var i := CronStage(st, r.cronOk);
      Ended(Does(w, [DoCron(r.cronOk)] + ApiActs(c, r, skipReady)),
            (if i.Halt? then T.Stop(c, i, sent) else T.FromApi(c, r, i.st, sent, skipReady)).st)
  {
    var a, rest, i := DoCron(r.cronOk), ApiActs(c, r, skipReady), CronStage(st, r.cronOk);
    var v := TopStep(w, a);
    LocalLands(w, c, Cron, st, (st: Status) => CronStage(st, r.cronOk), Ensure(Api));
    DoesCons(w, a, rest);
    if i.Halt? {
      EndedStays(v, rest);
    } else {
      AllKept(w, v, c, r);
      ApiDoes(v, c, r, i.st, sent, skipReady);
    }
  }

  lemma AllKept(w: World, v: World, c: T.Top, r: T.TopReplies)
    requires ChildrenTruth(w, c, r) && v.cr == w.cr
    ensures ChildrenTruth(v, c, r)
  {
    TruthKept(w, v, c, r, Api);
    TruthKept(w, v, c, r, Engine);
    TruthKept(w, v, c, r, Applier);
  }

  lemma DbSyncLands(w: World, c: T.Top, r: T.TopReplies, st: Status)
    requires Stands(w, c, DbSync, st) && JobTruth(w, st.hash, JobHash(c.spec), r.job)
    ensures var v := TopStep(w, DoDbSync(After(r)));
      Lands(v, c, DbSyncStage(st, JobHash(c.spec), r.job), Cron) && v.cr == w.cr
  {}

  lemma JobDoes(w: World, c: T.Top, r: T.TopReplies, st: Status, sent: T.TopSent, skipReady: bool)
    requires Stands(w, c, DbSync, st) && ChildrenTruth(w, c, r) && JobTruth(w, st.hash, JobHash(c.spec), r.job)
    ensures var h := DbSyncStage(st, JobHash(c.spec), r.job);
      var i := CronStage(h.st, r.cronOk);
      Ended(Does(w, JobActs(c, r, skipReady)),
            (if h.Halt? then T.Stop(c, h, sent)
             else if i.Halt? then T.Stop(c, i, sent) else T.FromApi(c, r, i.st, sent, skipReady)).st)
  {
    var a, rest := DoDbSync(After(r)), [DoCron(r.cronOk)] + ApiActs(c, r, skipReady);
    var v, h := TopStep(w, a), DbSyncStage(st, JobHash(c.spec), r.job);
    DbSyncLands(w, c, r, st);
    DoesCons(w, a, rest);
    if h.Halt? {
      EndedStays(v, rest);
    } else {
      AllKept(w, v, c, r);
      CronDoes(v, c, r, h.st, sent, skipReady);
    }
  }

  function KeystoneAct(r: T.TopReplies): TopAct {
    DoKeystone(Write(r.keystone.ObjectIs?, r.keystone.ObjectIs?), {}, if r.keystone.ObjectIs? then r.keystone.mirrored else None)
  }

  function KeystoneActs(c: T.Top, r: T.TopReplies, skipReady: bool): seq<TopAct> {
    [KeystoneAct(r)] + ([DoTopConfig(r.configOk)] + JobActs(c, r, skipReady))
  }

  lemma KeystoneOk(w: World, c: T.Top, st: Status, m: Option<State>)
    requires Stands(w, c, Keystone, st) && Register(w, Watcher, KeystoneService, {}).Some?
    ensures var v := KeystonePass(w, Write(true, true), {}, m);
      Lands(v, c, KeystoneStage(st, ObjectIs(m, 0)), TopConfig) && v.cr == w.cr && v.jobs == w.jobs
  {
    var u := Register(w, Watcher, KeystoneService, {}).value;
    assert u.pass == w.pass && u.cr == w.cr && u.jobs == w.jobs;
    assert KeystonePass(w, Write(true, true), {}, m) ==
           SetPass(u, Watcher, Follow(w.pass[Watcher], KeystoneStage(st, ObjectIs(m, 0)), TopConfig));
  }

  lemma KeystoneFails(w: World, c: T.Top, st: Status)
    requires Stands(w, c, Keystone, st)
    ensures var v := KeystonePass(w, Write(false, false), {}, None);
      Lands(v, c, KeystoneStage(st, ObjectFailed), TopConfig) && v.cr == w.cr && v.jobs == w.jobs
  {}

  lemma KeystoneLands(w: World, c: T.Top, r: T.TopReplies, st: Status)
    requires Stands(w, c, Keystone, st) && KeystoneTruth(w, r)
    ensures var v := TopStep(w, KeystoneAct(r));
      Lands(v, c, KeystoneStage(st, r.keystone), TopConfig) && v.cr == w.cr && v.jobs == w.jobs
  {
    if r.keystone.ObjectIs? {
      KeystoneOk(w, c, st, r.keystone.mirrored);
    } else {
      KeystoneFails(w, c, st);
    }
  }

  lemma ConfigDoes(w: World, c: T.Top, r: T.TopReplies, st: Status, sent: T.TopSent, skipReady: bool)
    requires Stands(w, c, TopConfig, st) && ChildrenTruth(w, c, r) && JobTruth(w, st.hash, JobHash(c.spec), r.job)
    ensures var g := TopConfigStage(st, r.configOk);
      var h := DbSyncStage(g.st, JobHash(c.spec), r.job);
      var i := CronStage(h.st, r.cronOk);
      Ended(Does(w, [DoTopConfig(r.configOk)] + JobActs(c, r, skipReady)),
            (if g.Halt? then T.Stop(c, g, sent) else if h.Halt? then T.Stop(c, h, sent)
             else if i.Halt? then T.Stop(c, i, sent) else T.FromApi(c, r, i.st, sent, skipReady)).st)
  {
    var a, rest := DoTopConfig(r.configOk), JobActs(c, r, skipReady);
    var v, g := TopStep(w, a), TopConfigStage(st, r.configOk);
    LocalLands(w, c, TopConfig, st, (st: Status) => TopConfigStage(st, r.configOk), DbSync);
    DoesCons(w, a, rest);
    if g.Halt? {
      EndedStays(v, rest);
    } else {
      AllKept(w, v, c, r);
      JobDoes(v, c, r, g.st, sent, skipReady);
    }
  }

  lemma KeystoneDoes(w: World, c: T.Top, r: T.TopReplies, st: Status, sent: T.TopSent, skipReady: bool)
    requires Stands(w, c, Keystone, st) && KeystoneTruth(w, r) && ChildrenTruth(w, c, r)
    requires JobTruth(w, st.hash, JobHash(c.spec), r.job)
    ensures Ended(Does(w, KeystoneActs(c, r, skipReady)), T.FromKeystone(c, r, st, sent, skipReady).st)
  {
    var a, rest := KeystoneAct(r), [DoTopConfig(r.configOk)] + JobActs(c, r, skipReady);
    var v, f := TopStep(w, a), KeystoneStage(st, r.keystone);
    KeystoneLands(w, c, r, st);
    DoesCons(w, a, rest);
    if f.Halt? {
      EndedStays(v, rest);
    } else {
      AllKept(w, v, c, r);
      ConfigDoes(v, c, r, f.st, sent, skipReady);
    }
  }

  // Inputs

  function Seen(w: World): Obj {
    if Prometheus in w.obj then w.obj[Prometheus] else Obj(0, false, {})
  }

  function SecretActs(c: T.Top, r: T.TopReplies, skipReady: bool): seq<TopAct> {
    [DoSubSecret(r.subSecretOk)] + KeystoneActs(c, r, skipReady)
  }

  function InputActs(w: World, c: T.Top, r: T.TopReplies, skipReady: bool): seq<TopAct> {
    [DoTopInputs(T.MainRead(c, r), T.UrlRead(r), T.PromRead(r), Seen(w))]
    + ([DoPromUpdate(Write(r.promUpdateOk, r.promUpdateOk))] + SecretActs(c, r, skipReady))
  }

  lemma SecretDoes(w: World, c: T.Top, r: T.TopReplies, st: Status, sent: T.TopSent, skipReady: bool)
    requires Stands(w, c, SubSecret, st) && KeystoneTruth(w, r) && ChildrenTruth(w, c, r)
    requires JobTruth(w, st.hash, JobHash(c.spec), r.job)
    ensures var h := SubSecretStage(st, r.subSecretOk);
      Ended(Does(w, SecretActs(c, r, skipReady)),
            (if h.Halt? then T.Stop(c, h, sent) else T.FromKeystone(c, r, h.st, sent, skipReady)).st)
  {
    var a, rest, h := DoSubSecret(r.subSecretOk), KeystoneActs(c, r, skipReady), SubSecretStage(st, r.subSecretOk);
    var v := TopStep(w, a);
    LocalLands(w, c, SubSecret, st, (st: Status) => SubSecretStage(st, r.subSecretOk), Keystone);
    DoesCons(w, a, rest);
    if h.Halt? {
      EndedStays(v, rest);
    } else {
      AllKept(w, v, c, r);
      assert KeystoneTruth(v, r);
      KeystoneDoes(v, c, r, h.st, sent, skipReady);
    }
  }

  /** The update of the secret is pending with the stored object as the copy that was read. */
  predicate Holding(w: World, c: T.Top, st: Status) {
    && Stands(w, c, PromUpdate, st) && Prometheus in w.obj && w.pass[Watcher].copy == Some(w.obj[Prometheus])
  }

  lemma InputsLand(w: World, c: T.Top, r: T.TopReplies, st: Status)
    requires Stands(w, c, TopInputs, st) && PromTruth(w, c, r)
    ensures var f := TopInputStage(st, T.MainRead(c, r), T.UrlRead(r), T.PromRead(r));
      var v := TopStep(w, DoTopInputs(T.MainRead(c, r), T.UrlRead(r), T.PromRead(r), Seen(w)));
      && OnlyPass(w, v)
      && (f.Halt? ==> Ended(v, f.st))
      && (f.Go? ==> if r.promOwn then Stands(v, c, SubSecret, f.st) else Holding(v, c, f.st))
  {
    assert Prometheus in Held(w, Watcher) <==> Prometheus in w.obj && Own(Watcher) in w.obj[Prometheus].fins;
    assert Readable(w, Prometheus, Found(Seen(w)));
  }

  lemma PromLands(w: World, c: T.Top, st: Status, ok: bool)
    requires Holding(w, c, st) && (ok ==> !w.obj[Prometheus].deleting)
    ensures var v := TopStep(w, DoPromUpdate(Write(ok, ok)));
      && Lands(v, c, PromUpdateStage(st, ok), SubSecret) && v.cr == w.cr && v.jobs == w.jobs
      && Look(v.obj, KeystoneService) == Look(w.obj, KeystoneService)
  {}

  lemma PromSkips(w: World, c: T.Top, st: Status, wr: Write)
    requires Stands(w, c, SubSecret, st)
    ensures TopStep(w, DoPromUpdate(wr)) == w
  {}

  lemma KeystoneKept(w: World, v: World, r: T.TopReplies)
    requires KeystoneTruth(w, r) && Look(v.obj, KeystoneService) == Look(w.obj, KeystoneService)
    ensures KeystoneTruth(v, r)
  {
    assert KeystoneService in v.obj <==> KeystoneService in w.obj;
  }

  lemma UpdateDoes(w: World, c: T.Top, r: T.TopReplies, st: Status, sent: T.TopSent, skipReady: bool)
    requires if r.promOwn then Stands(w, c, SubSecret, st)
             else Holding(w, c, st) && (r.promUpdateOk ==> !w.obj[Prometheus].deleting)
    requires KeystoneTruth(w, r) && ChildrenTruth(w, c, r) && JobTruth(w, st.hash, JobHash(c.spec), r.job)
    ensures var g := if r.promOwn then Go(st) else PromUpdateStage(st, r.promUpdateOk);
      var h := SubSecretStage(g.st, r.subSecretOk);
      Ended(Does(w, [DoPromUpdate(Write(r.promUpdateOk, r.promUpdateOk))] + SecretActs(c, r, skipReady)),
            (if g.Halt? then T.Stop(c, g, sent) else if h.Halt? then T.Stop(c, h, sent)
             else T.FromKeystone(c, r, h.st, sent, skipReady)).st)
  {
    var a, rest := DoPromUpdate(Write(r.promUpdateOk, r.promUpdateOk)), SecretActs(c, r, skipReady);
    DoesCons(w, a, rest);
    if r.promOwn {
      PromSkips(w, c, st, a.wr);
      SecretDoes(w, c, r, st, sent, skipReady);
    } else {
      var v := TopStep(w, a);
      PromLands(w, c, st, r.promUpdateOk);
      if r.promUpdateOk {
        AllKept(w, v, c, r);
        KeystoneKept(w, v, r);
        SecretDoes(v, c, r, st, sent, skipReady);
      } else {
        EndedStays(v, rest);
      }
    }
  }

  lemma InputsDo(w: World, c: T.Top, r: T.TopReplies, st: Status, skipReady: bool)
    requires Stands(w, c, TopInputs, st) && PromTruth(w, c, r) && KeystoneTruth(w, r) && ChildrenTruth(w, c, r)
    requires JobTruth(w, st.hash, JobHash(c.spec), r.job)
    ensures Ended(Does(w, InputActs(w, c, r, skipReady)), T.FromInputs(c, r, st, skipReady).st)
  {
    var a := DoTopInputs(T.MainRead(c, r), T.UrlRead(r), T.PromRead(r), Seen(w));
    var rest := [DoPromUpdate(Write(r.promUpdateOk, r.promUpdateOk))] + SecretActs(c, r, skipReady);
    var v, f := TopStep(w, a), TopInputStage(st, T.MainRead(c, r), T.UrlRead(r), T.PromRead(r));
    InputsLand(w, c, r, st);
    DoesCons(w, a, rest);
    if f.Halt? {
      EndedStays(v, rest);
    } else {
      AllKept(w, v, c, r);
      assert KeystoneTruth(v, r);
      UpdateDoes(v, c, r, f.st, T.QUIET.(prom := !r.promOwn), skipReady);
    }
  }

  function Acts(w: World, c: T.Top, r: T.TopReplies, skipReady: bool): seq<TopAct> {
    [DoDatabases(r.db, r.mq)] + InputActs(w, c, r, skipReady)
  }

  /** A working pass of the Watcher that runs undisturbed in the cluster ends with the status that the
      sequential pass computes. */
  lemma TopPassRefines(w: World, c: T.Top, r: T.TopReplies, skipReady: bool)
    requires r.rbacOk && GateOf(c.own, c.deleting, c.st.conds == map[]) == Work
    requires Stands(w, c, Databases, RbacStage(Begin(Watcher, c.gen, c.st), r.rbac))
    requires PromTruth(w, c, r) && KeystoneTruth(w, r) && ChildrenTruth(w, c, r)
    requires JobTruth(w, c.st.hash, JobHash(c.spec), r.job)
    ensures Ended(Does(w, Acts(w, c, r, skipReady)), T.Body(c, r, skipReady).st)
  {
    var st := RbacStage(Begin(Watcher, c.gen, c.st), r.rbac);
    var a, f := DoDatabases(r.db, r.mq), DatabasesStage(st, r.db, r.mq);
    var v := TopStep(w, a);
    LocalLands(w, c, Databases, st, (st: Status) => DatabasesStage(st, r.db, r.mq), TopInputs);
    DoesCons(w, a, InputActs(w, c, r, skipReady));
    assert f.st.hash == c.st.hash;
    if f.Halt? {
      EndedStays(v, InputActs(w, c, r, skipReady));
    } else {
      AllKept(w, v, c, r);
      assert KeystoneTruth(v, r) && InputActs(v, c, r, skipReady) == InputActs(w, c, r, skipReady);
      InputsDo(v, c, r, f.st, skipReady);
    }
  }
}
