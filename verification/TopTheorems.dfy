/** What one pass of the Watcher achieves, for all replies. */
module TopTheorems {
  import opened Base
  import opened Conditions
  import opened Resources
  import opened Stages
  import opened Secrets
  import opened TopPass

  predicate Working(c: Top, r: TopReplies) {
    r.rbacOk && GateOf(c.own, c.deleting, c.st.conds == map[]) == Work
  }

  /** Database, transport URL and secrets are there, and the Prometheus secret carries the
      finalizer. */
  predicate InputsGood(c: Top, r: TopReplies) {
    && r.db.DbOk? && r.mq.MqOk?
    && MainRead(c, r).Got? && UrlRead(r).Got? && PromRead(r).Got?
    && (r.promOwn || r.promUpdateOk)
  }

  predicate SchemaGood(r: TopReplies) {
    r.keystone.ObjectIs? && r.configOk && r.job.JobDone? && r.cronOk
  }

  predicate ChildAnswers(c: Top, r: TopReplies, k: Kind) {
    r.child(k, Derive(k, c.spec)).ChildIs?
  }

  /** The child is up to date and mirrors True. */
  predicate ChildTrue(c: Top, r: TopReplies, k: Kind, skipReady: bool) {
    var a := r.child(k, Derive(k, c.spec));
    a.ChildIs? && ChildState(a.gen, a.status, skipReady) == Some(True)
  }

  // Services only after schema

  /** A pass patches children exactly when it works and everything before them went well, the dbsync
      job included; then it patches them in order, each with the derived spec. */
  lemma ChildrenOnlyAfterSchema(c: Top, r: TopReplies, skipReady: bool)
    ensures var o := Pass(c, r, skipReady);
      && (o.sent.children != [] <==> Working(c, r) && InputsGood(c, r) && r.subSecretOk && SchemaGood(r))
      && o.sent.children <= InOrder(c)
  {
    var st := RbacStage(Begin(Watcher, c.gen, c.st), r.rbac);
    if Working(c, r) && InputsGood(c, r) && r.subSecretOk {
      var st1 := Put(MqStage(DbStage(st, r.db).st, r.mq).st, InputReady, True);
      assert Body(c, r, skipReady) == FromKeystone(c, r, st1, QUIET.(prom := !r.promOwn), skipReady);
      SchemaChildren(c, r, st1, QUIET.(prom := !r.promOwn), skipReady);
    } else {
      NoChildren(c, r, skipReady);
    }
  }

  lemma NoChildren(c: Top, r: TopReplies, skipReady: bool)
    requires !(Working(c, r) && InputsGood(c, r) && r.subSecretOk)
    ensures Body(c, r, skipReady).sent.children == []
  {}

  function InOrder(c: Top): seq<(Kind, SubSpec)> {
    [(Api, Derive(Api, c.spec)), (Engine, Derive(Engine, c.spec)), (Applier, Derive(Applier, c.spec))]
  }

  lemma EngineChildren(c: Top, r: TopReplies, st: Status, sent: TopSent, skipReady: bool)
    ensures var o := FromEngine(c, r, st, sent, skipReady);
      o.sent.children == sent.children + [(Engine, Derive(Engine, c.spec))] ||
      o.sent.children == sent.children + [(Engine, Derive(Engine, c.spec))] + [(Applier, Derive(Applier, c.spec))]
  {}

  lemma ApiChildren(c: Top, r: TopReplies, st: Status, sent: TopSent, skipReady: bool)
    requires sent.children == []
    ensures [] < FromApi(c, r, st, sent, skipReady).sent.children <= InOrder(c)
  {
    var s1 := AndChild(sent, Api, c);
    assert s1.children == InOrder(c)[..1];
    var g := ExposeRoutesStage(Ensuring(c, r, Api, st, skipReady).st, r.routes);
    EngineChildren(c, r, g.st, s1, skipReady);
    assert s1.children + [InOrder(c)[1]] == InOrder(c)[..2];
    assert s1.children + [InOrder(c)[1]] + [InOrder(c)[2]] == InOrder(c);
  }

  lemma SchemaChildren(c: Top, r: TopReplies, st: Status, sent: TopSent, skipReady: bool)
    requires sent.children == []
    ensures var o := FromKeystone(c, r, st, sent, skipReady);
      (o.sent.children != [] <==> SchemaGood(r)) && o.sent.children <= InOrder(c)
  {
    if SchemaGood(r) {
      var st1 := KeystoneStage(st, r.keystone).st;
      var st2 := CronStage(DbSyncStage(Put(st1, ServiceConfigReady, True), JobHash(c.spec), r.job).st, true).st;
      assert FromKeystone(c, r, st, sent, skipReady) == FromApi(c, r, st2, sent, skipReady);
      ApiChildren(c, r, st2, sent, skipReady);
    }
  }

  // Silent exits

  /** A pass that works ends silently exactly when it swallows a failure to write the sub-level
      secret, or is through. */
  lemma TopSilentIff(c: Top, r: TopReplies, skipReady: bool)
    requires Working(c, r)
    ensures Silent(Pass(c, r, skipReady).exit) <==>
      && InputsGood(c, r)
      && (!r.subSecretOk ||
          (SchemaGood(r) && ChildAnswers(c, r, Api) && r.routes.RoutesOk?
           && ChildAnswers(c, r, Engine) && ChildAnswers(c, r, Applier) && r.cleanupOk))
  {
    var st := RbacStage(Begin(Watcher, c.gen, c.st), r.rbac);
    if InputsGood(c, r) && r.subSecretOk {
      var st1 := Put(MqStage(DbStage(st, r.db).st, r.mq).st, InputReady, True);
      assert Body(c, r, skipReady) == FromKeystone(c, r, st1, QUIET.(prom := !r.promOwn), skipReady);
      ThroughIff(c, r, st1, QUIET.(prom := !r.promOwn), skipReady);
    } else {
      EarlyExit(c, r, skipReady);
    }
  }

  lemma EarlyExit(c: Top, r: TopReplies, skipReady: bool)
    requires Working(c, r) && !(InputsGood(c, r) && r.subSecretOk)
    ensures Silent(Body(c, r, skipReady).exit) <==> InputsGood(c, r)
  {}

  lemma ThroughIff(c: Top, r: TopReplies, st: Status, sent: TopSent, skipReady: bool)
    ensures Silent(FromKeystone(c, r, st, sent, skipReady).exit) <==>
      && SchemaGood(r) && ChildAnswers(c, r, Api) && r.routes.RoutesOk?
      && ChildAnswers(c, r, Engine) && ChildAnswers(c, r, Applier) && r.cleanupOk
  {}

  // Ready

  predicate RbacTrue(r: Rbac) {
    r.account == True && r.role == True && r.binding == True
  }

  /** A Watcher's table with n pipeline conditions True and Ready undecided. */
  ghost predicate Standing(st: Status, n: int) {
    match st
    case Status(c, _, _, _) =>
      && (forall t {:trigger Listed(Watcher, t)} :: t in c <==> Listed(Watcher, t) || (t == DBAccountReady && n > 0))
      && Ready in c && c[Ready] == Unknown
      && (n > 0 ==> Is(c, DBAccountReady))
      && forall t {:trigger Rank(Watcher, t)} | t in c && Rank(Watcher, t) >= 0 :: c[t] == True <==> Rank(Watcher, t) < n
  }

  /** What is persisted says Ready exactly when it says True of everything else, unless the pass fails
      and the mirror counts the undecided Ready entry. */
  ghost predicate Tells(o: TopOutcome, skipReady: bool) {
    var c := Deferred(o.st, skipReady).conds;
    Is(c, Ready) <==> AllSubTrue(c) && (!o.exit.failed || skipReady)
  }

  lemma Unfinished(st: Status, t: Type, skipReady: bool)
    requires Get(st.conds, Ready) == Unknown && t in st.conds && t != Ready && st.conds[t] != True
    ensures !Is(Deferred(st, skipReady).conds, Ready) && !AllSubTrue(Deferred(st, skipReady).conds)
  {
    assert Deferred(st, skipReady).conds[t] == st.conds[t];
    MirrorTrue(st.conds, skipReady);
    assert t in Seen(st.conds, skipReady);
  }

  lemma NotReady(st: Status, n: int, t: Type, skipReady: bool)
    requires Standing(st, n) && t in st.conds && t != Ready && st.conds[t] != True
    ensures !Is(Deferred(st, skipReady).conds, Ready) && !AllSubTrue(Deferred(st, skipReady).conds)
  {
    Unfinished(st, t, skipReady);
  }

  predicate BaseTrue(c: Table) {
    Is(c, ServiceAccountReady) && Is(c, RoleReady) && Is(c, RoleBindingReady) && Is(c, KeystoneServiceReady)
  }

  /** The conditions that gate nothing. */
  predicate SideTrue(c: Table) {
    BaseTrue(c) && Is(c, APIReady) && Is(c, EngineReady) && Is(c, ApplierReady)
  }

  /** One of the side conditions that is missing. */
  function Lacking(c: Table): Type {
    if !Is(c, ServiceAccountReady) then ServiceAccountReady
    else if !Is(c, RoleReady) then RoleReady
    else if !Is(c, RoleBindingReady) then RoleBindingReady
    else if !Is(c, KeystoneServiceReady) then KeystoneServiceReady
    else if !Is(c, APIReady) then APIReady
    else if !Is(c, EngineReady) then EngineReady
    else ApplierReady
  }

  lemma EndAllTrue(st: Status)
    requires Standing(st, 7)
    ensures AllSubTrue(st.conds) <==> SideTrue(st.conds)
  {
    if SideTrue(st.conds) {
      forall t | t in st.conds && t != Ready ensures st.conds[t] == True {
        assert Listed(Watcher, t) || t == DBAccountReady;
        if 0 <= Rank(Watcher, t) {
          assert Rank(Watcher, t) < 7;
        }
      }
    } else {
      assert Listed(Watcher, Lacking(st.conds));
    }
  }

  lemma MarkSide(st: Status, n: int, t: Type, s: State)
    requires Standing(st, n) && Rank(Watcher, t) < 0 && t != Ready && t in st.conds && t != DBAccountReady
    ensures Standing(Put(st, t, s), n)
  {}

  lemma MarkNext(st: Status, n: int, t: Type, s: State)
    requires Standing(st, n) && Rank(Watcher, t) == n && n > 0 && t in st.conds
    ensures Standing(Put(st, t, s), if s == True then n + 1 else n)
  {
    forall u | u in st.conds && u != t && Rank(Watcher, u) >= 0 ensures Rank(Watcher, u) != n {
      match u { case _ => }
    }
  }

  lemma EndReady(st: Status, cleanupOk: bool, skipReady: bool)
    requires Standing(st, 7)
    ensures Is(Deferred(TopFinalStage(st, cleanupOk).st, skipReady).conds, Ready) <==>
      SideTrue(st.conds) && (cleanupOk || skipReady)
    ensures AllSubTrue(Deferred(TopFinalStage(st, cleanupOk).st, skipReady).conds) <==> SideTrue(st.conds)
  {
    EndAllTrue(st);
    if !SideTrue(st.conds) {
      assert Listed(Watcher, Lacking(st.conds));
      NotReady(st, 7, Lacking(st.conds), skipReady);
    } else if !cleanupOk {
      MirrorTrue(st.conds, skipReady);
      assert Listed(Watcher, DBReady);
      assert DBReady in Seen(st.conds, skipReady);
      assert !skipReady ==> Ready in Seen(st.conds, skipReady);
    }
  }

  /** A child's reply, and how it moves the pass. */
  lemma EnsureStands(c: Top, r: TopReplies, k: Kind, st: Status, n: int, skipReady: bool)
    requires k != Watcher && Standing(st, n) && Get(st.conds, ReadyTypeOf(k)) == Unknown
    ensures var f := Ensuring(c, r, k, st, skipReady);
      && Standing(f.st, n)
      && ReadyTypeOf(k) in f.st.conds
      && f.st.conds == st.conds[ReadyTypeOf(k) := f.st.conds[ReadyTypeOf(k)]]
      && (Is(f.st.conds, ReadyTypeOf(k)) <==> ChildTrue(c, r, k, skipReady))
      && (f.Halt? ==> !ChildTrue(c, r, k, skipReady))
  {
    var a := r.child(k, Derive(k, c.spec));
    assert Listed(Watcher, ReadyTypeOf(k));
    MarkSide(st, n, ReadyTypeOf(k), False(Error));
    if a.ChildIs? && ChildState(a.gen, a.status, skipReady).Some? {
      MarkSide(st, n, ReadyTypeOf(k), ChildState(a.gen, a.status, skipReady).value);
    }
  }

  lemma LastSide(c: Table, s: State)
    ensures SideTrue(c[ApplierReady := s]) <==> BaseTrue(c) && Is(c, APIReady) && Is(c, EngineReady) && s == True
  {}

  lemma ApplierReadyIff(c: Top, r: TopReplies, st: Status, sent: TopSent, skipReady: bool)
    requires Standing(st, 7) && Get(st.conds, ApplierReady) == Unknown
    ensures Is(Deferred(FromApplier(c, r, st, sent, skipReady).st, skipReady).conds, Ready) <==>
      && BaseTrue(st.conds) && Is(st.conds, APIReady) && Is(st.conds, EngineReady)
      && ChildTrue(c, r, Applier, skipReady) && (r.cleanupOk || skipReady)
    ensures Tells(FromApplier(c, r, st, sent, skipReady), skipReady)
  {
    var f := Ensuring(c, r, Applier, st, skipReady);
    EnsureStands(c, r, Applier, st, 7, skipReady);
    if f.Halt? {
      NotReady(f.st, 7, ApplierReady, skipReady);
    } else {
      LastSide(st.conds, f.st.conds[ApplierReady]);
      EndReady(f.st, r.cleanupOk, skipReady);
    }
  }

  lemma EngineReadyIff(c: Top, r: TopReplies, st: Status, sent: TopSent, skipReady: bool)
    requires Standing(st, 7) && Get(st.conds, EngineReady) == Unknown && Get(st.conds, ApplierReady) == Unknown
    ensures Is(Deferred(FromEngine(c, r, st, sent, skipReady).st, skipReady).conds, Ready) <==>
      && BaseTrue(st.conds) && Is(st.conds, APIReady)
      && ChildTrue(c, r, Engine, skipReady) && ChildTrue(c, r, Applier, skipReady) && (r.cleanupOk || skipReady)
    ensures Tells(FromEngine(c, r, st, sent, skipReady), skipReady)
  {
    var f := Ensuring(c, r, Engine, st, skipReady);
    EnsureStands(c, r, Engine, st, 7, skipReady);
    if f.Halt? {
      NotReady(f.st, 7, EngineReady, skipReady);
    } else {
      ApplierReadyIff(c, r, f.st, AndChild(sent, Engine, c), skipReady);
    }
  }

  lemma RoutesStands(st: Status, r: RouteReply)
    requires Standing(st, 6)
    ensures var f := ExposeRoutesStage(st, r);
      && ExposeServiceReady in f.st.conds
      && f.st.conds == st.conds[ExposeServiceReady := f.st.conds[ExposeServiceReady]]
      && Standing(f.st, if f.Go? then 7 else 6) && (f.Halt? ==> f.st.conds[ExposeServiceReady] != True)
  {
    assert Listed(Watcher, ExposeServiceReady);
    MarkNext(st, 6, ExposeServiceReady, ExposeRoutesStage(st, r).st.conds[ExposeServiceReady]);
  }

  lemma RoutesReadyIff(c: Top, r: TopReplies, st: Status, sent: TopSent, skipReady: bool)
    requires Standing(st, 6) && Get(st.conds, EngineReady) == Unknown && Get(st.conds, ApplierReady) == Unknown
    ensures Is(Deferred(FromRoutes(c, r, st, sent, skipReady).st, skipReady).conds, Ready) <==>
      && BaseTrue(st.conds) && Is(st.conds, APIReady) && r.routes.RoutesOk?
      && ChildTrue(c, r, Engine, skipReady) && ChildTrue(c, r, Applier, skipReady) && (r.cleanupOk || skipReady)
    ensures Tells(FromRoutes(c, r, st, sent, skipReady), skipReady)
  {
    var f := ExposeRoutesStage(st, r.routes);
    RoutesStands(st, r.routes);
    if f.Halt? {
      NotReady(f.st, 6, ExposeServiceReady, skipReady);
    } else {
      EngineReadyIff(c, r, f.st, sent, skipReady);
    }
  }

  predicate ChildrenTrue(c: Top, r: TopReplies, skipReady: bool) {
    && ChildTrue(c, r, Api, skipReady) && r.routes.RoutesOk?
    && ChildTrue(c, r, Engine, skipReady) && ChildTrue(c, r, Applier, skipReady)
  }

  lemma ApiReadyIff(c: Top, r: TopReplies, st: Status, sent: TopSent, skipReady: bool)
    requires Standing(st, 6) && Get(st.conds, APIReady) == Unknown
    requires Get(st.conds, EngineReady) == Unknown && Get(st.conds, ApplierReady) == Unknown
    ensures Is(Deferred(FromApi(c, r, st, sent, skipReady).st, skipReady).conds, Ready) <==>
      && BaseTrue(st.conds) && ChildrenTrue(c, r, skipReady) && (r.cleanupOk || skipReady)
    ensures Tells(FromApi(c, r, st, sent, skipReady), skipReady)
  {
    if Ensuring(c, r, Api, st, skipReady).Halt? {
      ApiHalts(c, r, st, sent, skipReady);
    } else {
      ApiGoes(c, r, st, sent, skipReady);
    }
  }

  lemma ApiHalts(c: Top, r: TopReplies, st: Status, sent: TopSent, skipReady: bool)
    requires Standing(st, 6) && Get(st.conds, APIReady) == Unknown && Ensuring(c, r, Api, st, skipReady).Halt?
    ensures var o := FromApi(c, r, st, sent, skipReady);
      !Is(Deferred(o.st, skipReady).conds, Ready) && !ChildTrue(c, r, Api, skipReady) && Tells(o, skipReady)
  {
    var f := Ensuring(c, r, Api, st, skipReady);
    EnsureStands(c, r, Api, st, 6, skipReady);
    NotReady(f.st, 6, APIReady, skipReady);
  }

  lemma ApiGoes(c: Top, r: TopReplies, st: Status, sent: TopSent, skipReady: bool)
    requires Standing(st, 6) && Get(st.conds, APIReady) == Unknown && Ensuring(c, r, Api, st, skipReady).Go?
    requires Get(st.conds, EngineReady) == Unknown && Get(st.conds, ApplierReady) == Unknown
    ensures Is(Deferred(FromApi(c, r, st, sent, skipReady).st, skipReady).conds, Ready) <==>
      && BaseTrue(st.conds) && ChildrenTrue(c, r, skipReady) && (r.cleanupOk || skipReady)
    ensures Tells(FromApi(c, r, st, sent, skipReady), skipReady)
  {
    var f := Ensuring(c, r, Api, st, skipReady);
    EnsureStands(c, r, Api, st, 6, skipReady);
    RoutesReadyIff(c, r, f.st, AndChild(sent, Api, c), skipReady);
  }

  /** No child is mirrored yet. */
  predicate Childless(c: Table) {
    Get(c, APIReady) == Unknown && Get(c, EngineReady) == Unknown && Get(c, ApplierReady) == Unknown
  }

  predicate RbacSet(c: Table, r: Rbac) {
    Is(c, ServiceAccountReady) && Is(c, RoleReady) && Is(c, RoleBindingReady) <==> RbacTrue(r)
  }

  lemma JobStands(st: Status, h: Digest, j: JobReply)
    requires Standing(st, 4)
    ensures var f := DbSyncStage(st, h, j);
      && DBSyncReady in f.st.conds && f.st.conds == st.conds[DBSyncReady := f.st.conds[DBSyncReady]]
      && Standing(f.st, if f.Go? then 5 else 4) && (f.Halt? ==> f.st.conds[DBSyncReady] != True)
  {
    var st0 := if j.JobDone? then st.(hash := Some(h)) else st;
    assert Listed(Watcher, DBSyncReady);
    assert Standing(st0, 4);
    MarkNext(st0, 4, DBSyncReady, DbSyncStage(st, h, j).st.conds[DBSyncReady]);
  }

  lemma CronStands(st: Status, ok: bool)
    requires Standing(st, 5)
    ensures var f := CronStage(st, ok);
      && CronJobReady in f.st.conds && f.st.conds == st.conds[CronJobReady := f.st.conds[CronJobReady]]
      && Standing(f.st, if f.Go? then 6 else 5) && (f.Halt? ==> f.st.conds[CronJobReady] != True)
  {
    assert Listed(Watcher, CronJobReady);
    MarkNext(st, 5, CronJobReady, CronStage(st, ok).st.conds[CronJobReady]);
  }

  function FromCron(c: Top, r: TopReplies, st: Status, sent: TopSent, skipReady: bool): TopOutcome {
    var i := CronStage(st, r.cronOk);
    if i.Halt? then Stop(c, i, sent) else FromApi(c, r, i.st, sent, skipReady)
  }

  /** A pipeline condition moves nothing that stands aside. */
  lemma Aside(c: Table, t: Type, s: State, r: Rbac)
    requires Rank(Watcher, t) >= 0 || t == DBAccountReady
    ensures RbacSet(c[t := s], r) <==> RbacSet(c, r)
    ensures Childless(c[t := s]) <==> Childless(c)
    ensures Is(c[t := s], KeystoneServiceReady) <==> Is(c, KeystoneServiceReady)
    ensures Get(c[t := s], KeystoneServiceReady) == Get(c, KeystoneServiceReady)
  {}

  lemma CronReadyIff(c: Top, r: TopReplies, st: Status, sent: TopSent, skipReady: bool)
    requires Standing(st, 5) && Childless(st.conds) && RbacSet(st.conds, r.rbac)
    ensures Is(Deferred(FromCron(c, r, st, sent, skipReady).st, skipReady).conds, Ready) <==>
      && r.cronOk && RbacTrue(r.rbac) && Is(st.conds, KeystoneServiceReady)
      && ChildrenTrue(c, r, skipReady) && (r.cleanupOk || skipReady)
    ensures Tells(FromCron(c, r, st, sent, skipReady), skipReady)
  {
    var i := CronStage(st, r.cronOk);
    CronStands(st, r.cronOk);
    Aside(st.conds, CronJobReady, i.st.conds[CronJobReady], r.rbac);
    if i.Halt? {
      NotReady(i.st, 5, CronJobReady, skipReady);
    } else {
      ApiReadyIff(c, r, i.st, sent, skipReady);
    }
  }

  lemma JobReadyIff(c: Top, r: TopReplies, st: Status, sent: TopSent, skipReady: bool)
    requires Standing(st, 4) && Childless(st.conds) && RbacSet(st.conds, r.rbac)
    ensures var h := DbSyncStage(st, JobHash(c.spec), r.job);
      var o := if h.Halt? then Stop(c, h, sent) else FromCron(c, r, h.st, sent, skipReady);
      Is(Deferred(o.st, skipReady).conds, Ready) <==>
        && r.job.JobDone? && r.cronOk && RbacTrue(r.rbac) && Is(st.conds, KeystoneServiceReady)
        && ChildrenTrue(c, r, skipReady) && (r.cleanupOk || skipReady)
    ensures var h := DbSyncStage(st, JobHash(c.spec), r.job);
      Tells(if h.Halt? then Stop(c, h, sent) else FromCron(c, r, h.st, sent, skipReady), skipReady)
  {
    var h := DbSyncStage(st, JobHash(c.spec), r.job);
    JobStands(st, JobHash(c.spec), r.job);
    Aside(st.conds, DBSyncReady, h.st.conds[DBSyncReady], r.rbac);
    if h.Halt? {
      NotReady(h.st, 4, DBSyncReady, skipReady);
    } else {
      CronReadyIff(c, r, h.st, sent, skipReady);
    }
  }

  lemma KeystoneReadyIff(c: Top, r: TopReplies, st: Status, sent: TopSent, skipReady: bool)
    requires Standing(st, 3) && Childless(st.conds) && RbacSet(st.conds, r.rbac)
    requires Get(st.conds, KeystoneServiceReady) == Unknown
    ensures Is(Deferred(FromKeystone(c, r, st, sent, skipReady).st, skipReady).conds, Ready) <==>
      && SchemaGood(r) && r.keystone.mirrored == Some(True) && RbacTrue(r.rbac)
      && ChildrenTrue(c, r, skipReady) && (r.cleanupOk || skipReady)
    ensures Tells(FromKeystone(c, r, st, sent, skipReady), skipReady)
  {
    var f := KeystoneStage(st, r.keystone);
    assert Listed(Watcher, KeystoneServiceReady) && Listed(Watcher, ServiceConfigReady);
    MarkSide(st, 3, KeystoneServiceReady, f.st.conds[KeystoneServiceReady]);
    assert f.st.conds == st.conds[KeystoneServiceReady := f.st.conds[KeystoneServiceReady]];
    assert Standing(f.st, 3);
    if f.Halt? {
      NotReady(f.st, 3, KeystoneServiceReady, skipReady);
    } else {
      var g := TopConfigStage(f.st, r.configOk);
      MarkNext(f.st, 3, ServiceConfigReady, g.st.conds[ServiceConfigReady]);
      if g.Halt? {
        NotReady(g.st, 3, ServiceConfigReady, skipReady);
      } else {
        JobReadyIff(c, r, g.st, sent, skipReady);
      }
    }
  }

  lemma BeginStands(gen: nat, st: Status, r: Rbac)
    ensures var st1 := RbacStage(Begin(Watcher, gen, st), r);
      && Standing(st1, 0) && Childless(st1.conds) && RbacSet(st1.conds, r)
      && Get(st1.conds, KeystoneServiceReady) == Unknown
  {
    InitStands(gen, st);
    var st0 := Begin(Watcher, gen, st);
    MarkSide(st0, 0, ServiceAccountReady, r.account);
    var st1 := Put(st0, ServiceAccountReady, r.account);
    MarkSide(st1, 0, RoleReady, r.role);
    MarkSide(Put(st1, RoleReady, r.role), 0, RoleBindingReady, r.binding);
  }

  lemma InitStands(gen: nat, st: Status)
    ensures var st0 := Begin(Watcher, gen, st);
      && Standing(st0, 0) && Childless(st0.conds) && Get(st0.conds, KeystoneServiceReady) == Unknown
      && ServiceAccountReady in st0.conds && RoleReady in st0.conds && RoleBindingReady in st0.conds
  {
    assert Listed(Watcher, ServiceAccountReady) && Listed(Watcher, RoleReady) && Listed(Watcher, RoleBindingReady);
  }

  /** The statuses between the database and the inputs. */
  lemma DbStands(st: Status, d: DbReply)
    requires Standing(st, 0)
    ensures var f := DbStage(st, d);
      && (f.Go? ==> Standing(f.st, 1) && f.st.conds == st.conds[DBAccountReady := True][DBReady := True])
      && (f.Halt? ==> Ready in f.st.conds && f.st.conds[Ready] == Unknown
                      && DBReady in f.st.conds && f.st.conds[DBReady] != True)
  {
    assert Listed(Watcher, DBReady) && Rank(Watcher, DBReady) == 0;
    var f := DbStage(st, d);
    if f.Go? {
      forall t | t in f.st.conds && Rank(Watcher, t) >= 0 ensures f.st.conds[t] == True <==> Rank(Watcher, t) < 1 {
        assert t != DBReady ==> Rank(Watcher, t) > 0;
      }
    }
  }

  predicate Fresh(st: Status, r: Rbac) {
    Childless(st.conds) && RbacSet(st.conds, r) && Get(st.conds, KeystoneServiceReady) == Unknown
  }

  /** What still has to go well once the inputs are ready. */
  predicate RestGood(c: Top, r: TopReplies, skipReady: bool) {
    && SchemaGood(r) && r.keystone.mirrored == Some(True) && RbacTrue(r.rbac)
    && ChildrenTrue(c, r, skipReady) && (r.cleanupOk || skipReady)
  }

  lemma InputsReadyIff(c: Top, r: TopReplies, st: Status, skipReady: bool)
    requires Standing(st, 2) && Fresh(st, r.rbac)
    ensures Is(Deferred(FromInputs(c, r, st, skipReady).st, skipReady).conds, Ready) <==>
      && MainRead(c, r).Got? && UrlRead(r).Got? && PromRead(r).Got? && (r.promOwn || r.promUpdateOk)
      && r.subSecretOk && RestGood(c, r, skipReady)
    ensures Tells(FromInputs(c, r, st, skipReady), skipReady)
  {
    var f := TopInputStage(st, MainRead(c, r), UrlRead(r), PromRead(r));
    assert Listed(Watcher, InputReady) && Rank(Watcher, InputReady) == 2;
    if f.Halt? {
      Unfinished(f.st, InputReady, skipReady);
    } else if !r.promOwn && !r.promUpdateOk {
      Unfinished(PromUpdateStage(f.st, false).st, InputReady, skipReady);
    } else if !r.subSecretOk {
      Unfinished(st, InputReady, skipReady);
    } else {
      MarkNext(st, 2, InputReady, True);
      KeystoneReadyIff(c, r, Put(st, InputReady, True), QUIET.(prom := !r.promOwn), skipReady);
    }
  }

  /** From the inputs on. */
  predicate InputsOn(c: Top, r: TopReplies, skipReady: bool) {
    && MainRead(c, r).Got? && UrlRead(r).Got? && PromRead(r).Got? && (r.promOwn || r.promUpdateOk)
    && r.subSecretOk && RestGood(c, r, skipReady)
  }

  lemma MqReadyIff(c: Top, r: TopReplies, st: Status, skipReady: bool)
    requires Standing(st, 1) && Fresh(st, r.rbac)
    ensures Is(Deferred(FromMq(c, r, st, skipReady).st, skipReady).conds, Ready) <==> r.mq.MqOk? && InputsOn(c, r, skipReady)
    ensures Tells(FromMq(c, r, st, skipReady), skipReady)
  {
    var g := MqStage(st, r.mq);
    assert Listed(Watcher, TransportURLReady);
    MarkNext(st, 1, TransportURLReady, g.st.conds[TransportURLReady]);
    Aside(st.conds, TransportURLReady, g.st.conds[TransportURLReady], r.rbac);
    if g.Halt? {
      Unfinished(g.st, TransportURLReady, skipReady);
    } else {
      InputsReadyIff(c, r, g.st, skipReady);
    }
  }

  lemma DbGoes(c: Top, r: TopReplies, st: Status, skipReady: bool)
    requires Standing(st, 0) && Fresh(st, r.rbac) && r.db.DbOk?
    ensures var st1 := Put(Put(st, DBAccountReady, True), DBReady, True);
      Standing(st1, 1) && Fresh(st1, r.rbac) && FromDb(c, r, st, skipReady) == FromMq(c, r, st1, skipReady)
  {
    DbStands(st, r.db);
    Aside(st.conds, DBAccountReady, True, r.rbac);
    Aside(st.conds[DBAccountReady := True], DBReady, True, r.rbac);
  }

  lemma DbHalts(c: Top, r: TopReplies, st: Status, skipReady: bool)
    requires Standing(st, 0) && !r.db.DbOk?
    ensures var o := FromDb(c, r, st, skipReady); !Is(Deferred(o.st, skipReady).conds, Ready) && Tells(o, skipReady)
  {
    DbStands(st, r.db);
    Unfinished(DbStage(st, r.db).st, DBReady, skipReady);
  }

  lemma DbReadyIff(c: Top, r: TopReplies, st: Status, skipReady: bool)
    requires Standing(st, 0) && Fresh(st, r.rbac)
    ensures Is(Deferred(FromDb(c, r, st, skipReady).st, skipReady).conds, Ready) <==>
      r.db.DbOk? && r.mq.MqOk? && InputsOn(c, r, skipReady)
    ensures Tells(FromDb(c, r, st, skipReady), skipReady)
  {
    if r.db.DbOk? {
      DbGoes(c, r, st, skipReady);
      MqReadyIff(c, r, Put(Put(st, DBAccountReady, True), DBReady, True), skipReady);
    } else {
      DbHalts(c, r, st, skipReady);
    }
  }

  /** A pass ends with Ready True exactly when everything went well and every child, up to date,
      mirrors True. A failing clean-up at the very end keeps Ready True only if the mirror leaves the
      Ready entry out; apart from that, Ready is True exactly when all other conditions are. */
  lemma TopReadyIff(c: Top, r: TopReplies, skipReady: bool)
    ensures Is(Pass(c, r, skipReady).st.conds, Ready) <==>
      Working(c, r) && InputsGood(c, r) && r.subSecretOk && RestGood(c, r, skipReady)
    ensures Tells(Body(c, r, skipReady), skipReady)
  {
    var st := RbacStage(Begin(Watcher, c.gen, c.st), r.rbac);
    BeginStands(c.gen, c.st, r.rbac);
    if Working(c, r) {
      DbReadyIff(c, r, st, skipReady);
    } else {
      assert Listed(Watcher, DBReady) && Rank(Watcher, DBReady) == 0;
      Unfinished(st, DBReady, skipReady);
    }
  }
}
