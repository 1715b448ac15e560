/** Services only after schema: the Watcher writes a child only when, in that same pass, its
    database, transport URL and inputs were ready, and the dbsync job for the spec it read had
    completed. */
module Schema {
  import opened Base
  import opened Conditions
  import opened Resources
  import opened Stages
  import opened World
  import opened Invariants
  import opened Safety
  import opened SafetyRuns
  import opened Theorems
  import opened Histories

  predicate Completed(w: World, h: Digest) {
    h in w.jobs && w.jobs[h].Complete?
  }

  /** A recorded job hash names a completed job. */
  predicate RecordOk(w: World, st: Status) {
    st.hash.Some? ==> Completed(w, st.hash.value)
  }

  predicate WorkDone(w: World, p: Pass) {
    && RecordOk(w, p.st)
    && (Late(p.pc) ==> p.snap.spec.Parent? && p.st.hash == Some(JobHash(p.snap.spec.w)))
  }

  ghost predicate SchemaOk(w: World) {
    && (Watcher in w.cr ==> RecordOk(w, w.cr[Watcher].status))
    && (Watcher in w.pass ==> WorkDone(w, w.pass[Watcher]))
  }

  ghost predicate JobsKept(w: World, v: World) {
    forall h :: Completed(w, h) ==> Completed(v, h)
  }

  /** The pass keeps what it read and its job hash, and does not jump past the dbsync stage. */
  predicate Onward(p: Pass, q: Pass) {
    q.snap == p.snap && q.st.hash == p.st.hash && (Late(q.pc) ==> Late(p.pc))
  }

  /** No job hash appears on the Watcher's record. */
  predicate RecordKept(w: World, v: World) {
    if Watcher !in v.cr || v.cr[Watcher].status.hash == None then true
    else Watcher in w.cr && v.cr[Watcher].status.hash == w.cr[Watcher].status.hash
  }

  ghost predicate TopKept(w: World, v: World) {
    && JobsKept(w, v) && RecordKept(w, v)
    && (Watcher in v.pass ==> Watcher in w.pass && Onward(w.pass[Watcher], v.pass[Watcher]))
  }

  lemma CalmKept(w: World, v: World)
    requires SchemaOk(w) && Calm(w, v)
    ensures SchemaOk(v)
  {
    assert TopKept(w, v);
  }

  lemma StartSchema(w: World, k: Kind, rbac: Rbac, rbacOk: bool)
    requires SchemaOk(w)
    ensures SchemaOk(DoStart(w, k, rbac, rbacOk))
  {}

  lemma MetaSchema(w: World, k: Kind, applied: bool)
    requires SchemaOk(w)
    ensures SchemaOk(DoWriteMeta(w, k, applied))
  {
    MetaRecord(w, k, applied);
    assert TopKept(w, DoWriteMeta(w, k, applied));
  }

  lemma MetaRecord(w: World, k: Kind, applied: bool)
    ensures RecordKept(w, DoWriteMeta(w, k, applied)) && DoWriteMeta(w, k, applied).jobs == w.jobs
  {}

  lemma StatusSchema(w: World, k: Kind, applied: bool, skipReady: bool)
    requires SchemaOk(w)
    ensures SchemaOk(DoWriteStatus(w, k, applied, skipReady))
  {}

  lemma DeployedOnward(k: Kind, p: Pass, read: SubSpec, o: Sts, problem: Option<StsReply>)
    ensures Onward(p, Deployed(k, p, read, o, problem))
  {}

  lemma DeploySchema(w: World, k: Kind, ca: Option<CaCert>, applied: bool, problem: Option<StsReply>)
    requires SchemaOk(w)
    ensures SchemaOk(DeployPass(w, k, ca, applied, problem))
  {
    if MayDeploy(w, k, applied, problem) {
      var p := w.pass[k];
      var o := Patched(w, k, WorkloadOf(p.snap.spec.s, ca, p.st.hash.value));
      DeployedOnward(k, p, p.snap.spec.s, o, problem);
      assert TopKept(w, DeployPass(w, k, ca, applied, problem));
    }
  }

  lemma EnsureSchema(w: World, child: Kind, wr: Write, skipReady: bool)
    requires SchemaOk(w)
    ensures SchemaOk(EnsurePass(w, child, wr, skipReady))
  {
    if MayEnsure(w, child, wr) {
      assert TopKept(w, EnsurePass(w, child, wr, skipReady));
    }
  }

  lemma DbSyncSchema(w: World, after: Delay)
    requires SchemaOk(w)
    ensures SchemaOk(DbSyncPass(w, after))
  {
    if At(w, Watcher, DbSync) && w.pass[Watcher].snap.spec.Parent? {
      var p := w.pass[Watcher];
      var h := JobHash(p.snap.spec.w);
      assert JobsKept(w, DbSyncPass(w, after));
      assert JobReplyOf(w, p, h, after).JobDone? ==> Completed(w, h);
    }
  }

  lemma EnvSchema(w: World, e: EnvAct)
    requires SchemaOk(w)
    ensures SchemaOk(EnvStep(w, e))
  {
    EnvTop(w, e);
  }

  lemma EnvTop(w: World, e: EnvAct)
    ensures TopKept(w, EnvStep(w, e))
  {
    if e.CreateCR? || e.EditSpec? || e.RequestDelete? || e.Hold? {
      assert EnvStep(w, e).jobs == w.jobs && EnvStep(w, e).pass == w.pass;
      EnvRecord(w, e);
    } else {
      ElsewhereTraces(w, e);
      assert JobsKept(w, EnvStep(w, e));
    }
  }

  lemma EnvRecord(w: World, e: EnvAct)
    requires e.CreateCR? || e.EditSpec? || e.RequestDelete? || e.Hold?
    ensures RecordKept(w, EnvStep(w, e))
  {}

  lemma StepSchema(w: World, l: Label)
    requires Inv(Core, w) && SchemaOk(w)
    ensures SchemaOk(Apply(w, l))
  {
    match l
    case Start(k, rbac, rbacOk) => StartSchema(w, k, rbac, rbacOk);
    case Crash(_) =>
    case WriteMeta(k, applied) => MetaSchema(w, k, applied);
    case WriteStatus(k, applied, skipReady) => StatusSchema(w, k, applied, skipReady);
    case ChildDoes(k, a) => ChildSchema(w, k, a);
    case WatcherDoes(t) => TopSchema(w, t);
    case ReleaseReads(k, s, r) =>
      CalmReleaseRead(w, k, s, r);
      CalmKept(w, Apply(w, l));
    case ReleaseWrites(k, s, wr) =>
      CalmReleaseWrite(w, k, s, wr);
      CalmKept(w, Apply(w, l));
    case EnvDoes(e) => EnvSchema(w, e);
  }

  lemma ChildSchema(w: World, k: Kind, a: ChildAct)
    requires Inv(Core, w) && SchemaOk(w)
    ensures SchemaOk(ChildStep(w, k, a))
  {
    if a.DoDeploy? {
      DeploySchema(w, k, a.ca, a.applied, a.problem);
    } else {
      CheckHashOfChild(w, k);
      CalmChild(w, k, a);
      CalmKept(w, ChildStep(w, k, a));
    }
  }

  lemma TopSchema(w: World, t: TopAct)
    requires SchemaOk(w)
    ensures SchemaOk(TopStep(w, t))
  {
    if t.DoEnsure? {
      EnsureSchema(w, t.child, t.wr, t.skipReady);
    } else if t.DoDbSync? {
      DbSyncSchema(w, t.after);
    } else {
      if t.DoCron? {
        CalmCron(w, t.ok);
      } else {
        CalmTop(w, t);
      }
      CalmKept(w, TopStep(w, t));
    }
  }

  lemma {:induction false} RunSchema(ls: seq<Label>)
    ensures SchemaOk(After(ls))
  {
    if ls != [] {
      var us := ls[..|ls| - 1];
      RunSchema(us);
      RunKeeps(Core, us);
      StepSchema(After(us), ls[|ls| - 1]);
    }
  }

  predicate SixTrue(c: Table) {
    && Is(c, DBReady) && Is(c, TransportURLReady) && Is(c, InputReady)
    && Is(c, ServiceConfigReady) && Is(c, DBSyncReady) && Is(c, CronJobReady)
  }

  /** What holds in the Watcher's pass before it may write a child. */
  predicate SchemaReady(w: World) {
    && Watcher in w.pass && w.pass[Watcher].snap.spec.Parent?
    && SixTrue(w.pass[Watcher].st.conds)
    && Completed(w, JobHash(w.pass[Watcher].snap.spec.w))
  }

  lemma EnsuringIsSix(w: World, child: Kind)
    requires Inv(Core, w) && At(w, Watcher, Ensure(child)) && child != Watcher
    ensures SixTrue(w.pass[Watcher].st.conds)
  {
    Mine(Core, w, Watcher);
  }

  lemma MayEnsureOnlyReady(ls: seq<Label>, child: Kind, wr: Write)
    requires MayEnsure(After(ls), child, wr)
    ensures SchemaReady(After(ls))
  {
    RunKeeps(Core, ls);
    RunSchema(ls);
    EnsuringIsSix(After(ls), child);
  }

  /** A child comes into being, or changes its spec, by a user's hand or by a Watcher pass that found
      everything ready and the schema job for its spec complete. */
  lemma ServicesOnlyAfterSchema(ls: seq<Label>, l: Label, child: Kind)
    requires child != Watcher
    ensures var w, v := After(ls), After(ls + [l]);
      child in v.cr && (child in w.cr ==> w.cr[child].spec != v.cr[child].spec) ==>
        || (l.EnvDoes? && (l.e.CreateCR? || l.e.EditSpec?))
        || (l.WatcherDoes? && l.t.DoEnsure? && l.t.child == child && SchemaReady(w)
            && v.cr[child].spec == Child(Derive(child, w.pass[Watcher].snap.spec.w)))
  {
    Snoc(EMPTY, ls, l);
    RunKeeps(Core, ls);
    var w := After(ls);
    SpecStep(w, l, child);
    if l.WatcherDoes? && l.t.DoEnsure? && MayEnsure(w, l.t.child, l.t.wr) {
      MayEnsureOnlyReady(ls, l.t.child, l.t.wr);
    }
  }

  /** Same spec, or gone. */
  predicate SpecKept(w: World, v: World, k: Kind) {
    k in v.cr ==> k in w.cr && v.cr[k].spec == w.cr[k].spec
  }

  lemma ChildSpec(w: World, k: Kind, a: ChildAct)
    requires Inv(Core, w)
    ensures ChildStep(w, k, a).cr == w.cr
  {
    if !a.DoDeploy? {
      CheckHashOfChild(w, k);
      CalmChild(w, k, a);
    }
  }

  lemma TopSpec(w: World, t: TopAct)
    requires !t.DoEnsure?
    ensures TopStep(w, t).cr == w.cr
  {
    if t.DoCron? {
      CalmCron(w, t.ok);
    } else if !t.DoDbSync? {
      CalmTop(w, t);
    }
  }

  lemma EnsureSpec(w: World, j: Kind, wr: Write, skipReady: bool, child: Kind)
    ensures
      || SpecKept(w, EnsurePass(w, j, wr, skipReady), child)
      || (j == child && MayEnsure(w, child, wr)
          && EnsurePass(w, j, wr, skipReady).cr[child].spec == Child(Derive(child, w.pass[Watcher].snap.spec.w)))
  {}

  lemma EnvSpec(w: World, e: EnvAct, k: Kind)
    requires !e.CreateCR? && !e.EditSpec?
    ensures SpecKept(w, EnvStep(w, e), k)
  {
    if !e.RequestDelete? && !e.Hold? {
      ElsewhereTraces(w, e);
    }
  }

  lemma OwnSpec(w: World, l: Label, k: Kind)
    requires l.Start? || l.Crash? || l.WriteMeta? || l.WriteStatus?
    ensures SpecKept(w, Apply(w, l), k)
  {}

  lemma SpecStep(w: World, l: Label, child: Kind)
    requires Inv(Core, w)
    ensures
      || SpecKept(w, Apply(w, l), child)
      || (l.EnvDoes? && (l.e.CreateCR? || l.e.EditSpec?))
      || (l.WatcherDoes? && l.t.DoEnsure? && l.t.child == child && MayEnsure(w, child, l.t.wr)
          && Apply(w, l).cr[child].spec == Child(Derive(child, w.pass[Watcher].snap.spec.w)))
  {
    match l
    case ChildDoes(k, a) => ChildSpec(w, k, a);
    case WatcherDoes(t) =>
      if t.DoEnsure? {
        EnsureSpec(w, t.child, t.wr, t.skipReady, child);
      } else {
        TopSpec(w, t);
      }
    case ReleaseReads(k, s, r) => CalmReleaseRead(w, k, s, r);
    case ReleaseWrites(k, s, wr) => CalmReleaseWrite(w, k, s, wr);
    case EnvDoes(e) =>
      if !e.CreateCR? && !e.EditSpec? {
        EnvSpec(w, e, child);
      }
    case Start(_, _, _) => OwnSpec(w, l, child);
    case Crash(_) => OwnSpec(w, l, child);
    case WriteMeta(_, _) => OwnSpec(w, l, child);
    case WriteStatus(_, _, _) => OwnSpec(w, l, child);
  }

  // Which job it was

  /** With this step the Watcher starts the job h, in a pass that read spec a. */
  predicate StartsJob(w: World, l: Label, h: Digest, a: WatcherSpec) {
    && l.WatcherDoes? && l.t.DoDbSync? && At(w, Watcher, DbSync) && w.pass[Watcher].snap.spec == Parent(a)
    && h !in w.jobs && h in Apply(w, l).jobs
  }

  /** With this step the job h completes. */
  predicate CompletesJob(w: World, l: Label, h: Digest) {
    l.EnvDoes? && l.e.JobEnds? && !Completed(w, h) && Completed(Apply(w, l), h)
  }

  lemma JobsStay(w: World, l: Label)
    requires Inv(Core, w) && !(l.WatcherDoes? && l.t.DoDbSync?) && !(l.EnvDoes? && l.e.JobEnds?)
    ensures Apply(w, l).jobs == w.jobs
  {
    match l
    case Start(_, _, _) =>
    case Crash(_) =>
    case WriteMeta(k, applied) => MetaRecord(w, k, applied);
    case WriteStatus(k, applied, skipReady) =>
    case ChildDoes(k, a) => ChildJobs(w, k, a);
    case WatcherDoes(t) => TopJobs(w, t);
    case ReleaseReads(k, s, r) => CalmReleaseRead(w, k, s, r);
    case ReleaseWrites(k, s, wr) => CalmReleaseWrite(w, k, s, wr);
    case EnvDoes(e) => EnvJobs(w, e);
  }

  lemma ChildJobs(w: World, k: Kind, a: ChildAct)
    requires Inv(Core, w)
    ensures ChildStep(w, k, a).jobs == w.jobs
  {
    if !a.DoDeploy? {
      CheckHashOfChild(w, k);
      CalmChild(w, k, a);
    }
  }

  lemma TopJobs(w: World, t: TopAct)
    requires !t.DoDbSync?
    ensures TopStep(w, t).jobs == w.jobs
  {
    if t.DoCron? {
      CalmCron(w, t.ok);
    } else if !t.DoEnsure? {
      CalmTop(w, t);
    }
  }

  lemma EnvJobs(w: World, e: EnvAct)
    requires !e.JobEnds?
    ensures EnvStep(w, e).jobs == w.jobs
  {}

  predicate SameJob(a: WatcherSpec, b: WatcherSpec) {
    a.name == b.name && a.apiImage == b.apiImage && a.tls.ca == b.tls.ca
  }

  /** Step i of the run started the job h for spec a. */
  predicate Started(ls: seq<Label>, i: nat, h: Digest, a: WatcherSpec) {
    i < |ls| && StartsJob(After(ls[..i]), ls[i], h, a)
  }

  lemma StartedStays(us: seq<Label>, ls: seq<Label>, i: nat, h: Digest, a: WatcherSpec)
    requires us <= ls && Started(us, i, h, a)
    ensures Started(ls, i, h, a)
  {
    assert us[..i] == ls[..i];
  }

  lemma {:induction false} JobsAreStarted(ls: seq<Label>, h: Digest) returns (i: nat, a: WatcherSpec)
    requires h in After(ls).jobs
    ensures Started(ls, i, h, a) && JobHash(a) == h
  {
    var us, l := ls[..|ls| - 1], ls[|ls| - 1];
    RunKeeps(Core, us);
    if h in After(us).jobs {
      i, a := JobsAreStarted(us, h);
      StartedStays(us, ls, i, h, a);
    } else {
      i := |us|;
      a := NewJob(After(us), l, h);
    }
  }

  lemma NewJob(w: World, l: Label, h: Digest) returns (a: WatcherSpec)
    requires Inv(Core, w) && h !in w.jobs && h in Apply(w, l).jobs
    ensures StartsJob(w, l, h, a) && JobHash(a) == h
  {
    if l.WatcherDoes? && l.t.DoDbSync? {
      a := w.pass[Watcher].snap.spec.w;
    } else if !(l.EnvDoes? && l.e.JobEnds?) {
      JobsStay(w, l);
    }
  }

  lemma CompletesNow(w: World, l: Label, h: Digest)
    requires Inv(Core, w) && !Completed(w, h) && Completed(Apply(w, l), h)
    ensures CompletesJob(w, l, h) && h in w.jobs
  {
    if !(l.WatcherDoes? && l.t.DoDbSync?) && !(l.EnvDoes? && l.e.JobEnds?) {
      JobsStay(w, l);
    }
  }

  /** The job h was started for spec a with step i and completed with the later step j. */
  predicate DoneAt(ls: seq<Label>, h: Digest, i: nat, j: nat, a: WatcherSpec) {
    Started(ls, i, h, a) && i < j < |ls| && CompletesJob(After(ls[..j]), ls[j], h)
  }

  lemma DoneStays(us: seq<Label>, ls: seq<Label>, h: Digest, i: nat, j: nat, a: WatcherSpec)
    requires us <= ls && DoneAt(us, h, i, j, a)
    ensures DoneAt(ls, h, i, j, a)
  {
    StartedStays(us, ls, i, h, a);
    assert us[..j] == ls[..j];
  }

  lemma {:induction false} CompletedWasDone(ls: seq<Label>, h: Digest) returns (i: nat, j: nat, a: WatcherSpec)
    requires Completed(After(ls), h)
    ensures DoneAt(ls, h, i, j, a) && JobHash(a) == h
  {
    var us, l := ls[..|ls| - 1], ls[|ls| - 1];
    RunKeeps(Core, us);
    if Completed(After(us), h) {
      i, j, a := CompletedWasDone(us, h);
      DoneStays(us, ls, h, i, j, a);
    } else {
      CompletesNow(After(us), l, h);
      i, a := JobsAreStarted(us, h);
      StartedStays(us, ls, i, h, a);
      j := |us|;
    }
  }

  /** Over whole runs: when the operator creates a child or gives it a new spec, a dbsync job was started
      earlier by a Watcher pass that had read the same name, API image and CA bundle, and completed since. */
  lemma ChildrenAfterTheirJob(ls: seq<Label>, l: Label, child: Kind)
    requires child != Watcher && !(l.EnvDoes? && (l.e.CreateCR? || l.e.EditSpec?))
    requires var w, v := After(ls), After(ls + [l]);
      child in v.cr && (child in w.cr ==> w.cr[child].spec != v.cr[child].spec)
    ensures var w := After(ls);
      && Watcher in w.pass && w.pass[Watcher].snap.spec.Parent?
      && exists h, i: nat, j: nat, a :: DoneAt(ls, h, i, j, a) && SameJob(a, w.pass[Watcher].snap.spec.w)
  {
    ServicesOnlyAfterSchema(ls, l, child);
    var spec := After(ls).pass[Watcher].snap.spec.w;
    var i, j, a := CompletedWasDone(ls, JobHash(spec));
    JobHashTells(a, spec);
    assert DoneAt(ls, JobHash(spec), i, j, a) && SameJob(a, spec);
  }
}
