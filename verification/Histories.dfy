/** Where things in a reachable cluster come from: the evidence behind a report of readiness, the
    hash a StatefulSet carries, and the children a Watcher has created. */
module Histories {
  import opened Base
  import opened Conditions
  import opened Resources
  import opened Stages
  import opened World
  import opened Invariants
  import opened Safety
  import opened SafetyRuns
  import opened Theorems

  // Evidence

  /** Owner o's trace quotes evidence e about child k. */
  predicate Quotes(o: Kind, t: Trace, k: Kind, e: Evidence) {
    match t
    case NoTrace => false
    case SubTrace(f) => o == k && f == e
    case TopTrace(_, _, seen) => k in seen && seen[k] == e
  }

  function StoredTrace(w: World, o: Kind): Trace {
    if o in w.cr then w.cr[o].trace else NoTrace
  }

  function PassTrace(w: World, o: Kind): Trace {
    if o in w.pass then w.pass[o].trace else NoTrace
  }

  predicate QuotedBy(w: World, o: Kind, k: Kind, e: Evidence) {
    Quotes(o, StoredTrace(w, o), k, e) || Quotes(o, PassTrace(w, o), k, e)
  }

  ghost predicate Quoted(w: World, k: Kind, e: Evidence) {
    exists o :: QuotedBy(w, o, k, e)
  }

  /** In w, label l patches child k's StatefulSet from a pass that read what e says, and leaves the
      StatefulSet as e says. */
  predicate Deploys(w: World, l: Label, k: Kind, e: Evidence) {
    && l.ChildDoes? && l.k == k && l.a.DoDeploy? && MayDeploy(w, k, l.a.applied, None)
    && w.pass[k].snap.spec == Child(e.read) && w.pass[k].snap.gen == e.gen
    && e.sts == Patched(w, k, WorkloadOf(e.read, l.a.ca, w.pass[k].st.hash.value))
    && Look(Apply(w, l).sts, k) == Some(e.sts)
  }

  // Steps that leave most things alone

  /** The stages that follow the dbsync stage. */
  predicate Late(pc: Pc) {
    pc.Working? && (pc.stage.Cron? || pc.stage.Ensure? || pc.stage.ExposeRoutes? || pc.stage.TopFinish?)
  }

  /** A pass moved without touching its trace; the Watcher's neither its job hash nor its way past
      the dbsync stage. */
  predicate Moved(o: Kind, p: Pass, q: Pass) {
    && q.trace == p.trace && q.snap == p.snap
    && (o == Watcher ==> q.st.hash == p.st.hash && (Late(q.pc) ==> Late(p.pc)))
  }

  /** Only passes moved. */
  ghost predicate Calm(w: World, v: World) {
    && v.cr == w.cr && v.sts == w.sts && v.jobs == w.jobs
    && forall o :: o in v.pass ==> o in w.pass && Moved(o, w.pass[o], v.pass[o])
  }

  /** Besides the passes, w and u differ at most in their shared objects. */
  predicate SameRecords(w: World, u: World) {
    u.cr == w.cr && u.sts == w.sts && u.jobs == w.jobs && u.pass == w.pass
  }

  lemma CalmPass(w: World, u: World, k: Kind, q: Pass)
    requires SameRecords(w, u) && k in w.pass && Moved(k, w.pass[k], q)
    ensures Calm(w, SetPass(u, k, q))
  {}

  lemma FollowMoves(k: Kind, p: Pass, f: Flow, next: Stage)
    requires k == Watcher ==> f.st.hash == p.st.hash
    requires Late(Working(next)) ==> Late(p.pc)
    ensures Moved(k, p, Follow(p, f, next))
  {}

  lemma SendsOnlyObjects(w: World, k: Kind, s: Shared, wr: Write)
    ensures SameRecords(w, AddOwnTo(w, k, s, wr).0)
  {}

  lemma RegisterOnlyObjects(w: World, k: Kind, s: Shared, others: set<nat>)
    ensures Register(w, k, s, others).Some? ==> SameRecords(w, Register(w, k, s, others).value)
  {}

  lemma CalmLocal(w: World, k: Kind, stage: Stage, f: Status -> Flow, next: Stage)
    requires k == Watcher && At(w, k, stage) ==> f(w.pass[k].st).st.hash == w.pass[k].st.hash
    requires Late(Working(next)) ==> Late(Working(stage))
    ensures Calm(w, Local(w, k, stage, f, next))
  {
    if At(w, k, stage) {
      var g := f(w.pass[k].st);
      FollowMoves(k, w.pass[k], g, next);
      CalmPass(w, w, k, Follow(w.pass[k], g, next));
    }
  }

  lemma CalmReadMem(w: World, k: Kind, r: Read, ready: bool)
    ensures Calm(w, ReadMemcached(w, k, r, ready))
  {
    if At(w, k, MemRead) && Readable(w, Memcached, r) {
      var p := w.pass[k].(copy := if r.Found? then Some(r.copy) else None);
      var next := if r.Found? && Own(k) !in r.copy.fins then MemUpdate else Configure;
      var f := MemStage(p.st, MemReplyOf(r, ready));
      FollowMoves(k, p, f, next);
      CalmPass(w, w, k, Follow(p, f, next));
    }
  }

  lemma CalmUpdateMem(w: World, k: Kind, wr: Write)
    ensures Calm(w, UpdateMemcached(w, k, wr))
  {
    if At(w, k, MemUpdate) {
      var (u, ok) := AddOwnTo(w, k, Memcached, wr);
      var f := MemUpdateStage(w.pass[k].st, ok);
      SendsOnlyObjects(w, k, Memcached, wr);
      FollowMoves(k, w.pass[k], f, Configure);
      CalmPass(w, u, k, Follow(w.pass[k], f, Configure));
    }
  }

  lemma CalmPublish(w: World, k: Kind, wr: Write, others: set<nat>, m: Option<State>, n: nat)
    ensures Calm(w, PublishPass(w, k, wr, others, m, n))
  {
    if At(w, k, Publish) {
      var r := if wr.applied then Register(w, k, KeystoneEndpoint, others) else None;
      RegisterOnlyObjects(w, k, KeystoneEndpoint, others);
      var f := EndpointStage(w.pass[k].st, if r.Some? && wr.ok then ObjectIs(m, n) else ObjectFailed);
      FollowMoves(k, w.pass[k], f, Finish);
      CalmPass(w, if r.Some? then r.value else w, k, Follow(w.pass[k], f, Finish));
    }
  }

  lemma CalmChild(w: World, k: Kind, a: ChildAct)
    requires !a.DoDeploy? && (At(w, k, CheckHash) ==> k != Watcher)
    ensures Calm(w, ChildStep(w, k, a))
  {
    match a
    case DoMemRead(r, ready) => CalmReadMem(w, k, r, ready);
    case DoMemUpdate(wr) => CalmUpdateMem(w, k, wr);
    case DoPublish(wr, others, m, n) => CalmPublish(w, k, wr, others, m, n);
    case DoInputs(main, prom) => CalmLocal(w, k, Inputs, (st: Status) => InputStage(k, st, main, prom, REQUEUE), MemRead);
    case DoConfigure(c) => CalmLocal(w, k, Configure, (st: Status) => ConfigStage(st, c), CheckTls);
    case DoTls(t) => CalmLocal(w, k, CheckTls, (st: Status) => TlsStage(k, st, t), CheckHash);
    case DoHash(h) => CalmLocal(w, k, CheckHash, (st: Status) => HashStage(st, h), Deploy);
    case DoExpose(s) => CalmLocal(w, k, Expose, (st: Status) => ExposeStage(st, s), Publish);
    case DoFinish => CalmLocal(w, k, Finish, (st: Status) => FinalStage(st), Finish);
  }

  lemma CalmTopInputs(w: World, main: SecretRead, url: SecretRead, prom: SecretRead, copy: Obj)
    ensures Calm(w, TopInputsPass(w, main, url, prom, copy))
  {
    if At(w, Watcher, TopInputs) && Readable(w, Prometheus, Found(copy)) {
      var p := w.pass[Watcher].(copy := Some(copy));
      var next := if Own(Watcher) in copy.fins then SubSecret else PromUpdate;
      var f := TopInputStage(p.st, main, url, prom);
      FollowMoves(Watcher, p, f, next);
      CalmPass(w, w, Watcher, Follow(p, f, next));
    }
  }

  lemma CalmPrometheus(w: World, wr: Write)
    ensures Calm(w, UpdatePrometheus(w, wr))
  {
    if At(w, Watcher, PromUpdate) {
      var (u, ok) := AddOwnTo(w, Watcher, Prometheus, wr);
      var f := PromUpdateStage(w.pass[Watcher].st, ok);
      SendsOnlyObjects(w, Watcher, Prometheus, wr);
      FollowMoves(Watcher, w.pass[Watcher], f, SubSecret);
      CalmPass(w, u, Watcher, Follow(w.pass[Watcher], f, SubSecret));
    }
  }

  lemma CalmKeystone(w: World, wr: Write, others: set<nat>, m: Option<State>)
    ensures Calm(w, KeystonePass(w, wr, others, m))
  {
    if At(w, Watcher, Keystone) {
      var r := if wr.applied then Register(w, Watcher, KeystoneService, others) else None;
      RegisterOnlyObjects(w, Watcher, KeystoneService, others);
      var f := KeystoneStage(w.pass[Watcher].st, if r.Some? && wr.ok then ObjectIs(m, 0) else ObjectFailed);
      FollowMoves(Watcher, w.pass[Watcher], f, TopConfig);
      CalmPass(w, if r.Some? then r.value else w, Watcher, Follow(w.pass[Watcher], f, TopConfig));
    }
  }

  lemma CalmTop(w: World, t: TopAct)
    requires !t.DoEnsure? && !t.DoDbSync? && !t.DoCron?
    ensures Calm(w, TopStep(w, t))
  {
    match t
    case DoTopInputs(main, url, prom, copy) => CalmTopInputs(w, main, url, prom, copy);
    case DoPromUpdate(wr) => CalmPrometheus(w, wr);
    case DoKeystone(wr, others, m) => CalmKeystone(w, wr, others, m);
    case DoDatabases(d, m) => CalmLocal(w, Watcher, Databases, (st: Status) => DatabasesStage(st, d, m), TopInputs);
    case DoSubSecret(ok) => CalmLocal(w, Watcher, SubSecret, (st: Status) => SubSecretStage(st, ok), Keystone);
    case DoTopConfig(ok) => CalmLocal(w, Watcher, TopConfig, (st: Status) => TopConfigStage(st, ok), DbSync);
    case DoExposeRoutes(r) =>
      CalmLocal(w, Watcher, ExposeRoutes, (st: Status) => ExposeRoutesStage(st, r), Ensure(Engine));
    case DoTopFinish(ok) => CalmLocal(w, Watcher, TopFinish, (st: Status) => TopFinalStage(st, ok), TopFinish);
    case DoDropDb(ok) => CalmDropDb(w, ok);
  }

  lemma CalmDropDb(w: World, ok: bool)
    ensures Calm(w, DropDbPass(w, ok))
  {}

  lemma CalmCron(w: World, ok: bool)
    ensures Calm(w, TopStep(w, DoCron(ok)))
  {
    CalmLocal(w, Watcher, Cron, (st: Status) => CronStage(st, ok), Ensure(Api));
  }

  lemma CalmReleaseRead(w: World, k: Kind, s: Shared, r: Read)
    ensures Calm(w, ReleaseReadPass(w, k, s, r))
  {
    if k in w.pass && w.pass[k].pc == Release(s) && Readable(w, s, r) {
      CalmPass(w, w, k, AfterReleaseRead(k, w.pass[k], s, r));
    }
  }

  lemma CalmReleaseWrite(w: World, k: Kind, s: Shared, wr: Write)
    ensures Calm(w, ReleaseUpdatePass(w, k, s, wr))
  {
    if k in w.pass && w.pass[k].pc == ReleaseUpdate(s) && w.pass[k].copy.Some? {
      var copy := w.pass[k].copy.value;
      var fins := copy.fins - {Own(k)};
      var u := if wr.applied && Accepts(w, s, copy, fins) then SetFins(w, s, w.obj[s].deleting, fins) else w;
      var pc := ReleaseUpdatePass(w, k, s, wr).pass[k].pc;
      CalmPass(w, u, k, Stopped(w.pass[k], pc));
    }
  }

  // Evidence comes from deployments

  /** The owner's traces in v were there before. */
  predicate OldTraces(w: World, v: World, o: Kind) {
    && StoredTrace(v, o) in {NoTrace, StoredTrace(w, o), PassTrace(w, o)}
    && PassTrace(v, o) in {NoTrace, PassTrace(w, o)}
  }

  lemma PutTraces(w: World, k: Kind, c: Option<CR>, o: Kind)
    requires c.Some? ==> c.value.trace in {NoTrace, StoredTrace(w, k)}
    ensures OldTraces(w, PutCR(w, k, c), o)
  {}

  lemma CreateTraces(w: World, k: Kind, spec: Spec, o: Kind)
    ensures OldTraces(w, Created(w, k, spec), o)
  {
    PutTraces(w, k, Some(CR(1, spec, false, false, false, NEW_STATUS, NoTrace)), o);
  }

  lemma EditTraces(w: World, k: Kind, spec: Spec, o: Kind)
    ensures OldTraces(w, Edited(w, k, spec), o)
  {
    if k in w.cr {
      PutTraces(w, k, Some(Bumped(w.cr[k], spec, w.cr[k].deleting)), o);
    }
  }

  lemma LifeTraces(w: World, e: EnvAct, o: Kind)
    requires e.RequestDelete? || e.Hold?
    ensures OldTraces(w, EnvStep(w, e), o)
  {
    if e.k in w.cr {
      var c := w.cr[e.k];
      PutTraces(w, e.k, Stored(if e.Hold? then HeldBy(c, e.on) else Bumped(c, c.spec, true)), o);
    }
  }

  lemma ElsewhereTraces(w: World, e: EnvAct)
    requires !e.CreateCR? && !e.EditSpec? && !e.RequestDelete? && !e.Hold?
    ensures EnvStep(w, e).cr == w.cr && EnvStep(w, e).pass == w.pass
  {}

  lemma EnvTraces(w: World, e: EnvAct, o: Kind)
    ensures OldTraces(w, EnvStep(w, e), o)
  {
    if e.CreateCR? {
      CreateTraces(w, e.k, e.spec, o);
    } else if e.EditSpec? {
      EditTraces(w, e.k, e.spec, o);
    } else if e.RequestDelete? || e.Hold? {
      LifeTraces(w, e, o);
    } else {
      ElsewhereTraces(w, e);
    }
  }

  lemma StartTraces(w: World, k: Kind, rbac: Rbac, rbacOk: bool, o: Kind)
    ensures OldTraces(w, DoStart(w, k, rbac, rbacOk), o)
  {}

  lemma MetaTraces(w: World, k: Kind, applied: bool, o: Kind)
    ensures OldTraces(w, DoWriteMeta(w, k, applied), o)
  {}

  lemma StatusTraces(w: World, k: Kind, applied: bool, skipReady: bool, o: Kind)
    ensures OldTraces(w, DoWriteStatus(w, k, applied, skipReady), o)
  {}

  lemma OtherTraces(w: World, l: Label, o: Kind)
    requires !l.ChildDoes? && !l.WatcherDoes?
    ensures OldTraces(w, Apply(w, l), o)
  {
    match l
    case Start(k, rbac, rbacOk) => StartTraces(w, k, rbac, rbacOk, o);
    case Crash(_) =>
    case WriteMeta(k, applied) => MetaTraces(w, k, applied, o);
    case WriteStatus(k, applied, skipReady) => StatusTraces(w, k, applied, skipReady, o);
    case ReleaseReads(k, s, r) => CalmReleaseRead(w, k, s, r);
    case ReleaseWrites(k, s, wr) => CalmReleaseWrite(w, k, s, wr);
    case EnvDoes(e) => EnvTraces(w, e, o);
  }

  lemma DeployTraces(w: World, k: Kind, ca: Option<CaCert>, applied: bool, problem: Option<StsReply>, o: Kind, j: Kind, e: Evidence)
    requires QuotedBy(DeployPass(w, k, ca, applied, problem), o, j, e)
    ensures QuotedBy(w, o, j, e) || (j == k && Deploys(w, ChildDoes(k, DoDeploy(ca, applied, problem)), k, e))
  {}

  lemma EnsureTraces(w: World, child: Kind, wr: Write, skipReady: bool, o: Kind, j: Kind, e: Evidence)
    requires QuotedBy(EnsurePass(w, child, wr, skipReady), o, j, e)
    ensures QuotedBy(w, o, j, e) || QuotedBy(w, child, j, e)
  {}

  lemma DbSyncTraces(w: World, after: Delay, o: Kind)
    ensures OldTraces(w, DbSyncPass(w, after), o)
  {}

  lemma QuotedChild(w: World, k: Kind, a: ChildAct, o: Kind, j: Kind, e: Evidence)
    requires Inv(Core, w) && QuotedBy(ChildStep(w, k, a), o, j, e)
    ensures QuotedBy(w, o, j, e) || Deploys(w, ChildDoes(k, a), j, e)
  {
    if a.DoDeploy? {
      DeployTraces(w, k, a.ca, a.applied, a.problem, o, j, e);
    } else {
      CheckHashOfChild(w, k);
      CalmChild(w, k, a);
    }
  }

  lemma QuotedTop(w: World, t: TopAct, o: Kind, j: Kind, e: Evidence)
    requires QuotedBy(TopStep(w, t), o, j, e)
    ensures Quoted(w, j, e)
  {
    if t.DoEnsure? {
      EnsureTraces(w, t.child, t.wr, t.skipReady, o, j, e);
    } else {
      if t.DoDbSync? {
        DbSyncTraces(w, t.after, o);
      } else if t.DoCron? {
        CalmCron(w, t.ok);
      } else {
        CalmTop(w, t);
      }
      assert QuotedBy(w, o, j, e);
    }
  }

  lemma QuotedStep(w: World, l: Label, k: Kind, e: Evidence)
    requires Inv(Core, w) && Quoted(Apply(w, l), k, e)
    ensures Quoted(w, k, e) || Deploys(w, l, k, e)
  {
    var o :| QuotedBy(Apply(w, l), o, k, e);
    if l.ChildDoes? {
      QuotedChild(w, l.k, l.a, o, k, e);
    } else if l.WatcherDoes? {
      QuotedTop(w, l.t, o, k, e);
    } else {
      OtherTraces(w, l, o);
      assert QuotedBy(w, o, k, e);
    }
  }

  lemma CheckHashOfChild(w: World, k: Kind)
    requires Inv(Core, w)
    ensures At(w, k, CheckHash) ==> k != Watcher
  {
    Mine(Core, w, k);
  }

  /** Every evidence quoted anywhere was earned: some earlier step of that child patched its
      StatefulSet, from a pass that had read that spec at that generation, and left it as quoted. */
  lemma {:induction false} EvidenceIsReal(ls: seq<Label>, k: Kind, e: Evidence)
    requires Quoted(After(ls), k, e)
    ensures exists i :: 0 <= i < |ls| && Deploys(After(ls[..i]), ls[i], k, e)
  {
    if ls != [] {
      var us := ls[..|ls| - 1];
      RunKeeps(Core, us);
      QuotedStep(After(us), ls[|ls| - 1], k, e);
      if Quoted(After(us), k, e) {
        EvidenceIsReal(us, k, e);
        var i :| 0 <= i < |us| && Deploys(After(us[..i]), us[i], k, e);
        assert us[..i] == ls[..i];
      }
    }
  }

  /** The handshake, end to end: whenever the Watcher reports Ready, each child at some earlier step
      patched its StatefulSet from a pass that had read exactly the spec the Watcher derives from the
      spec it read, and found it observed at its generation with all replicas ready. */
  lemma ReadyIsEarned(ls: seq<Label>, child: Kind)
    requires child != Watcher
    requires Watcher in After(ls).cr && Is(After(ls).cr[Watcher].status.conds, Ready)
    ensures var t := After(ls).cr[Watcher].trace;
      && Saw1(child, t)
      && exists i :: 0 <= i < |ls| && Deploys(After(ls[..i]), ls[i], child, t.seen[child])
  {
    ReadyMeansDeployed(ls);
    assert Saw1(child, After(ls).cr[Watcher].trace);
    var e := After(ls).cr[Watcher].trace.seen[child];
    assert QuotedBy(After(ls), Watcher, child, e);
    EvidenceIsReal(ls, child, e);
  }

  // The recorded hash

  /** A pass that deploys uses the input hash that its CR already had on record when it started, and
      that is still on record. */
  lemma DeployedHashIsRecorded(ls: seq<Label>, k: Kind, ca: Option<CaCert>, applied: bool, problem: Option<StsReply>)
    requires MayDeploy(After(ls), k, applied, problem)
    ensures var w := After(ls);
      && w.pass[k].snap.status.hash == w.pass[k].st.hash
      && k in w.cr && w.cr[k].status.hash == w.pass[k].st.hash
  {
    RunKeeps(Core, ls);
    Mine(Core, After(ls), k);
  }

  /** k's CR has this input hash on record. */
  predicate OnRecord(w: World, k: Kind, h: Digest) {
    k in w.cr && w.cr[k].status.hash == Some(h)
  }

  lemma TopSts(w: World, t: TopAct)
    ensures TopStep(w, t).sts == w.sts
  {
    if t.DoCron? {
      CalmCron(w, t.ok);
    } else if !t.DoEnsure? && !t.DoDbSync? {
      CalmTop(w, t);
    }
  }

  lemma OwnSts(w: World, l: Label)
    requires l.Start? || l.Crash? || l.WriteMeta? || l.WriteStatus?
    ensures Apply(w, l).sts == w.sts
  {}

  lemma StsUnchanged(w: World, l: Label)
    requires Inv(Core, w) && !l.EnvDoes? && !(l.ChildDoes? && l.a.DoDeploy?)
    ensures Apply(w, l).sts == w.sts
  {
    if l.ChildDoes? {
      CheckHashOfChild(w, l.k);
      CalmChild(w, l.k, l.a);
    } else if l.WatcherDoes? {
      TopSts(w, l.t);
    } else if l.ReleaseReads? {
      CalmReleaseRead(w, l.k, l.s, l.r);
    } else if l.ReleaseWrites? {
      CalmReleaseWrite(w, l.k, l.s, l.wr);
    } else {
      OwnSts(w, l);
    }
  }

  lemma EnvWorkload(w: World, e: EnvAct, k: Kind)
    requires k in EnvStep(w, e).sts
    ensures k in w.sts && EnvStep(w, e).sts[k].work == w.sts[k].work
  {}

  lemma DeployWorkload(w: World, j: Kind, ca: Option<CaCert>, applied: bool, problem: Option<StsReply>, k: Kind)
    requires Inv(Core, w) && k in DeployPass(w, j, ca, applied, problem).sts
    ensures var v := DeployPass(w, j, ca, applied, problem);
      (k in w.sts && v.sts[k].work == w.sts[k].work) || OnRecord(w, k, v.sts[k].work.configHash)
  {
    if k == j {
      Mine(Core, w, k);
    }
  }

  /** Over whole runs: the hash that a StatefulSet carries was on record in its CR at some earlier
      moment. */
  lemma {:induction false} HashRecordedBeforeDeployed(ls: seq<Label>, k: Kind)
    requires k in After(ls).sts
    ensures exists i :: 0 <= i < |ls| && OnRecord(After(ls[..i]), k, After(ls).sts[k].work.configHash)
  {
    if ls != [] {
      var us, l := ls[..|ls| - 1], ls[|ls| - 1];
      RunKeeps(Core, us);
      if l.EnvDoes? {
        EnvWorkload(After(us), l.e, k);
      } else if l.ChildDoes? && l.a.DoDeploy? {
        DeployWorkload(After(us), l.k, l.a.ca, l.a.applied, l.a.problem, k);
      } else {
        StsUnchanged(After(us), l);
      }
      var h := After(ls).sts[k].work.configHash;
      if !OnRecord(After(us), k, h) {
        HashRecordedBeforeDeployed(us, k);
        var i :| 0 <= i < |us| && OnRecord(After(us[..i]), k, h);
        assert us[..i] == ls[..i];
      }
    }
  }
}
