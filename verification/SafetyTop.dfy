/** The working stages of the Watcher controller keep the invariant. */
module SafetyTop {
  import opened Base
  import opened Conditions
  import opened Resources
  import opened Stages
  import opened World
  import opened Invariants
  import opened Frames
  import opened Safety
  import opened SafetyChild

  lemma DbStopsSmooth(care: Care, p: Pass, c: Option<CR>, held: set<Shared>, d: DbReply)
    requires WorkOk(care, Watcher, p, c, held, Databases) && !d.DbOk?
    ensures Smooth(care, Watcher, p, DbStage(p.st, d), TopInputs, held)
  {}

  lemma AfterDb(care: Care, p: Pass, c: Option<CR>, held: set<Shared>)
    requires WorkOk(care, Watcher, p, c, held, Databases)
    ensures var st := Put(Put(p.st, DBAccountReady, True), DBReady, True);
      && st.observed == p.st.observed && Full(Watcher, st.conds) && Proven(Watcher, st, p.trace)
      && Upto(Watcher, st.conds, 1) && !Is(st.conds, Ready)
  {}

  lemma MqSmooth(care: Care, st: Status, p: Pass, held: set<Shared>, m: MqReply)
    requires st.observed == p.st.observed && Full(Watcher, st.conds) && Proven(Watcher, st, p.trace)
    requires Upto(Watcher, st.conds, 1) && !Is(st.conds, Ready)
    ensures Smooth(care, Watcher, p, MqStage(st, m), TopInputs, held)
  {}

  lemma DatabasesSmooth(care: Care, p: Pass, c: Option<CR>, held: set<Shared>, d: DbReply, m: MqReply)
    requires WorkOk(care, Watcher, p, c, held, Databases)
    ensures Smooth(care, Watcher, p, DatabasesStage(p.st, d, m), TopInputs, held)
  {
    if d.DbOk? {
      AfterDb(care, p, c, held);
      MqSmooth(care, Put(Put(p.st, DBAccountReady, True), DBReady, True), p, held, m);
      assert DatabasesStage(p.st, d, m) == MqStage(Put(Put(p.st, DBAccountReady, True), DBReady, True), m);
    } else {
      DbStopsSmooth(care, p, c, held, d);
      assert DatabasesStage(p.st, d, m) == DbStage(p.st, d);
    }
  }

  lemma TopInputsSmooth(care: Care, p: Pass, c: Option<CR>, held: set<Shared>, main: SecretRead, url: SecretRead,
                        prom: SecretRead, next: Stage)
    requires WorkOk(care, Watcher, p, c, held, TopInputs)
    requires next == PromUpdate || next == SubSecret
    requires care == Shield && next == SubSecret && main.Got? && url.Got? && prom.Got? ==> Prometheus in held
    ensures Smooth(care, Watcher, p, TopInputStage(p.st, main, url, prom), next, held)
  {}

  lemma PromUpdateSmooth(care: Care, p: Pass, c: Option<CR>, held: set<Shared>, after: set<Shared>, ok: bool)
    requires WorkOk(care, Watcher, p, c, held, PromUpdate)
    requires held <= after && (ok ==> Prometheus in after)
    ensures Smooth(care, Watcher, p, PromUpdateStage(p.st, ok), SubSecret, after)
  {}

  lemma SubSecretSmooth(care: Care, p: Pass, c: Option<CR>, held: set<Shared>, ok: bool)
    requires WorkOk(care, Watcher, p, c, held, SubSecret)
    ensures Smooth(care, Watcher, p, SubSecretStage(p.st, ok), Keystone, held)
  {}

  lemma KeystoneSmooth(care: Care, p: Pass, c: Option<CR>, held: set<Shared>, after: set<Shared>, r: ObjectReply)
    requires WorkOk(care, Watcher, p, c, held, Keystone)
    requires held <= after && (r.ObjectIs? ==> KeystoneService in after)
    ensures Smooth(care, Watcher, p, KeystoneStage(p.st, r), TopConfig, after)
  {}

  lemma TopConfigSmooth(care: Care, p: Pass, c: Option<CR>, held: set<Shared>, ok: bool)
    requires WorkOk(care, Watcher, p, c, held, TopConfig)
    ensures Smooth(care, Watcher, p, TopConfigStage(p.st, ok), DbSync, held)
  {}

  lemma DbSyncSmooth(care: Care, p: Pass, c: Option<CR>, held: set<Shared>, h: Digest, j: JobReply)
    requires WorkOk(care, Watcher, p, c, held, DbSync)
    ensures Smooth(care, Watcher, p, DbSyncStage(p.st, h, j), Cron, held)
  {}

  lemma CronSmooth(care: Care, p: Pass, c: Option<CR>, held: set<Shared>, ok: bool)
    requires WorkOk(care, Watcher, p, c, held, Cron)
    ensures Smooth(care, Watcher, p, CronStage(p.st, ok), Ensure(Api), held)
  {}

  lemma RoutesSmooth(care: Care, p: Pass, c: Option<CR>, held: set<Shared>, r: RouteReply)
    requires WorkOk(care, Watcher, p, c, held, ExposeRoutes)
    ensures Smooth(care, Watcher, p, ExposeRoutesStage(p.st, r), Ensure(Engine), held)
  {}

  lemma TopFinishSmooth(care: Care, p: Pass, c: Option<CR>, held: set<Shared>, ok: bool)
    requires WorkOk(care, Watcher, p, c, held, TopFinish)
    ensures Smooth(care, Watcher, p, TopFinalStage(p.st, ok), TopFinish, held)
  {
    if AllSubTrue(p.st.conds) {
      PutReady(care, Watcher, p.st, True, p.trace, held);
    }
  }

  // The handshake with a child

  /** A child that mirrors as True has evidence for exactly the spec it now has. */
  lemma MirroredProven(care: Care, child: Kind, c: CR, spec: SubSpec, held: set<Shared>, skipReady: bool)
    requires child != Watcher && StoredOk(care, child, Some(c), held) && c.spec == Child(spec)
    requires ChildState(c.gen, c.status, skipReady) == Some(True)
    ensures c.trace.SubTrace? && Sound(c.trace.e) && c.trace.e.read == spec
  {
    MirrorTrue(c.status.conds, skipReady);
    assert c.status.conds != map[];
    assert DeploymentReady in Seen(c.status.conds, skipReady);
  }

  lemma SawAll(t: Trace, gen: nat, top: WatcherSpec, child: Kind, c: Trace, other: Kind)
    requires Matches(t, gen, Parent(top)) && Dated(t, gen)
    ensures var u := Saw(t, gen, top, child, c);
      && Matches(u, gen, Parent(top)) && Dated(u, gen)
      && (other != child && Saw1(other, t) ==> Saw1(other, u))
      && (c.SubTrace? && Sound(c.e) && c.e.read == Derive(child, top) ==> Saw1(child, u))
  {}

  lemma EnsuredShape(child: Kind, p: Pass, top: WatcherSpec, c: CR, ok: bool, skipReady: bool)
    requires child != Watcher
    ensures var q := Ensured(child, p, top, c, ok, skipReady);
      && q.snap == p.snap && q.copy == p.copy
      && q.st.observed == p.st.observed && q.st.hash == p.st.hash
      && (forall t :: t != ReadyTypeOf(child) ==>
            (t in q.st.conds <==> t in p.st.conds) && (Is(q.st.conds, t) <==> Is(p.st.conds, t)))
      && (ReadyTypeOf(child) in p.st.conds ==> ReadyTypeOf(child) in q.st.conds)
      && (Is(q.st.conds, ReadyTypeOf(child)) ==>
            ok && (ChildState(c.gen, c.status, skipReady) == Some(True)
                   || (q.trace == p.trace && Is(p.st.conds, ReadyTypeOf(child)))))
      && (q.trace == p.trace || q.trace == Saw(p.trace, p.snap.gen, top, child, c.trace))
      && (ChildState(c.gen, c.status, skipReady).Some? && ok ==>
            q.trace == Saw(p.trace, p.snap.gen, top, child, c.trace))
      && q.pc == if ok then Working(AfterEnsure(child)) else Closing(Keep, FromWork, false)
  {}

  lemma EnsuredProven(care: Care, child: Kind, p: Pass, top: WatcherSpec, c: CR, ok: bool, skipReady: bool,
                      held: set<Shared>)
    requires child != Watcher && p.snap.spec == Parent(top)
    requires Matches(p.trace, p.snap.gen, p.snap.spec) && Dated(p.trace, p.snap.gen)
    requires Proven(Watcher, p.st, p.trace)
    requires StoredOk(care, child, Some(c), held) && c.spec == Child(Derive(child, top))
    ensures var q := Ensured(child, p, top, c, ok, skipReady);
      && Matches(q.trace, p.snap.gen, p.snap.spec) && Dated(q.trace, p.snap.gen)
      && Proven(Watcher, q.st, q.trace)
  {
    EnsuredShape(child, p, top, c, ok, skipReady);
    var q := Ensured(child, p, top, c, ok, skipReady);
    if ChildState(c.gen, c.status, skipReady) == Some(True) {
      MirroredProven(care, child, c, Derive(child, top), held, skipReady);
    }
    SawAll(p.trace, p.snap.gen, top, child, c.trace, Api);
    SawAll(p.trace, p.snap.gen, top, child, c.trace, Engine);
    SawAll(p.trace, p.snap.gen, top, child, c.trace, Applier);
  }

  /** Mirrored readiness is outside the pipeline. */
  lemma MirrorsAside(care: Care, child: Kind, a: Table, b: Table, held: set<Shared>, n: int)
    requires child != Watcher && Full(Watcher, a) && ReadyTypeOf(child) in b
    requires forall t :: t != ReadyTypeOf(child) ==> (t in b <==> t in a) && (Is(b, t) <==> Is(a, t))
    ensures Full(Watcher, b) && (Is(b, Ready) <==> Is(a, Ready))
    ensures Upto(Watcher, b, n) == Upto(Watcher, a, n) && Chain(Watcher, b) == Chain(Watcher, a)
    ensures Shielded(care, Watcher, b, held) == Shielded(care, Watcher, a, held)
  {}

  lemma EnsuredAnchored(care: Care, child: Kind, p: Pass, top: WatcherSpec, c: CR, ok: bool, skipReady: bool,
                        mine: Option<CR>, childHeld: set<Shared>)
    requires child != Watcher && Anchored(Watcher, p, mine) && p.snap.spec == Parent(top)
    requires StoredOk(care, child, Some(c), childHeld) && c.spec == Child(Derive(child, top))
    ensures Anchored(Watcher, Ensured(child, p, top, c, ok, skipReady), mine)
  {
    EnsuredProven(care, child, p, top, c, ok, skipReady, childHeld);
    EnsuredShape(child, p, top, c, ok, skipReady);
  }

  lemma EnsuredOk(care: Care, child: Kind, p: Pass, top: WatcherSpec, c: CR, ok: bool, skipReady: bool,
                  mine: Option<CR>, held: set<Shared>)
    requires WorkOk(care, Watcher, p, mine, held, Ensure(child))
    requires Anchored(Watcher, Ensured(child, p, top, c, ok, skipReady), mine)
    ensures PassOk(care, Watcher, Ensured(child, p, top, c, ok, skipReady), mine, held)
  {
    EnsuredShape(child, p, top, c, ok, skipReady);
    var q := Ensured(child, p, top, c, ok, skipReady);
    MirrorsAside(care, child, p.st.conds, q.st.conds, held, Level(Watcher, Ensure(child)));
    if ok {
      EnsuredGoes(care, child, p, q, mine, held);
    }
  }

  lemma EnsuredGoes(care: Care, child: Kind, p: Pass, q: Pass, mine: Option<CR>, held: set<Shared>)
    requires WorkOk(care, Watcher, p, mine, held, Ensure(child)) && Anchored(Watcher, q, mine)
    requires q.snap == p.snap && Full(Watcher, q.st.conds) && !Is(q.st.conds, Ready)
    requires Upto(Watcher, q.st.conds, Level(Watcher, Ensure(child))) && Shielded(care, Watcher, q.st.conds, held)
    ensures WorkOk(care, Watcher, q, mine, held, AfterEnsure(child))
  {
    assert Level(Watcher, AfterEnsure(child)) == Level(Watcher, Ensure(child));
  }

  lemma BumpStored(care: Care, k: Kind, c: CR, held: set<Shared>, spec: Spec, deleting: bool)
    requires StoredOk(care, k, Some(c), held) && SpecFits(k, spec) && (c.deleting ==> deleting)
    ensures StoredOk(care, k, Some(Bumped(c, spec, deleting)), held)
  {}

  lemma BumpPass(care: Care, k: Kind, p: Pass, c: CR, held: set<Shared>, spec: Spec, deleting: bool)
    requires PassOk(care, k, p, Some(c), held) && SpecFits(k, spec) && (c.deleting ==> deleting)
    ensures PassOk(care, k, p, Some(Bumped(c, spec, deleting)), held)
  {}

  /** A new generation with any spec of the right kind: nothing recorded speaks about it. */
  lemma BumpOk(care: Care, k: Kind, c: CR, p: Option<Pass>, held: set<Shared>, spec: Spec, deleting: bool)
    requires KindInv(care, k, Some(c), p, held) && SpecFits(k, spec) && (c.deleting ==> deleting)
    ensures KindInv(care, k, Some(Bumped(c, spec, deleting)), p, held)
  {
    BumpStored(care, k, c, held, spec, deleting);
    if p.Some? {
      BumpPass(care, k, p.value, c, held, spec, deleting);
    }
  }

  /** A CR created while an old pass of its key is still on its way out. */
  lemma FreshOk(care: Care, k: Kind, p: Option<Pass>, held: set<Shared>, spec: Spec)
    requires KindInv(care, k, None, p, held) && SpecFits(k, spec)
    ensures KindInv(care, k, Some(CR(1, spec, false, false, false, NEW_STATUS, NoTrace)), p, held)
  {}

  lemma PatchedChildOk(care: Care, w: World, child: Kind, spec: SubSpec)
    requires Inv(care, w) && child != Watcher
    ensures KindInv(care, child, Some(PatchedChild(w, child, spec)), Look(w.pass, child), Held(w, child))
    ensures PatchedChild(w, child, spec).spec == Child(spec)
  {
    Mine(care, w, child);
    if child !in w.cr {
      FreshOk(care, child, Look(w.pass, child), Held(w, child), Child(spec));
    } else if w.cr[child].spec != Child(spec) {
      BumpOk(care, child, w.cr[child], Look(w.pass, child), Held(w, child), Child(spec), w.cr[child].deleting);
    }
  }

  lemma EnsureJudged(care: Care, w: World, child: Kind, c: CR, ok: bool, skipReady: bool)
    requires Inv(care, w) && At(w, Watcher, Ensure(child)) && child != Watcher && w.pass[Watcher].snap.spec.Parent?
    requires c == PatchedChild(w, child, Derive(child, w.pass[Watcher].snap.spec.w))
    ensures var q := Ensured(child, w.pass[Watcher], w.pass[Watcher].snap.spec.w, c, ok, skipReady);
      Judge(care)(Watcher, Look(w.cr, Watcher), Some(q), Held(w, Watcher)) && CopiesOk(w, q)
  {
    var p, top := w.pass[Watcher], w.pass[Watcher].snap.spec.w;
    AtWork(care, w, Watcher, Ensure(child));
    Mine(care, w, Watcher);
    PatchedChildOk(care, w, child, Derive(child, top));
    EnsuredAnchored(care, child, p, top, c, ok, skipReady, Look(w.cr, Watcher), Held(w, child));
    EnsuredOk(care, child, p, top, c, ok, skipReady, Look(w.cr, Watcher), Held(w, Watcher));
  }

  lemma EnsureKeeps(care: Care, w: World, child: Kind, wr: Write, skipReady: bool)
    requires Inv(care, w)
    ensures Inv(care, EnsurePass(w, child, wr, skipReady))
  {
    if MayEnsure(w, child, wr) {
      var top := w.pass[Watcher].snap.spec.w;
      var c := PatchedChild(w, child, Derive(child, top));
      var q := Ensured(child, w.pass[Watcher], top, c, wr.ok, skipReady);
      EnsureJudged(care, w, child, c, wr.ok, skipReady);
      if wr.applied {
        PatchedChildOk(care, w, child, Derive(child, top));
        CRStep(w, child, Some(c), Judge(care));
        var u := PutCR(w, child, Some(c));
        ObjRevs(w, u);
        PassStep(u, Watcher, q, Judge(care));
      } else {
        PassStep(w, Watcher, q, Judge(care));
      }
    }
  }

  // On the cluster

  lemma TopInputsOk(care: Care, c: Option<CR>, p: Pass, held: set<Shared>, main: SecretRead, url: SecretRead,
                    prom: SecretRead, copy: Obj, next: Stage)
    requires KindInv(care, Watcher, c, Some(p), held) && p.pc == Working(TopInputs)
    requires next == PromUpdate || next == SubSecret
    requires care == Shield && next == SubSecret && main.Got? && url.Got? && prom.Got? ==> Prometheus in held
    ensures KindInv(care, Watcher, c, Some(Follow(p.(copy := Some(copy)), TopInputStage(p.st, main, url, prom), next)), held)
  {
    var q := p.(copy := Some(copy));
    TopInputsSmooth(care, q, c, held, main, url, prom, next);
    FollowOk(care, Watcher, q, c, held, TopInputStage(p.st, main, url, prom), next);
  }

  lemma TopInputsJudged(care: Care, w: World, main: SecretRead, url: SecretRead, prom: SecretRead, copy: Obj, q: Pass)
    requires Inv(care, w) && At(w, Watcher, TopInputs) && Readable(w, Prometheus, Found(copy))
    requires care == Shield ==> !PhantomProm(w, main, url, prom, copy)
    requires q == Follow(w.pass[Watcher].(copy := Some(copy)), TopInputStage(w.pass[Watcher].st, main, url, prom),
                         if Own(Watcher) in copy.fins then SubSecret else PromUpdate)
    ensures Judge(care)(Watcher, Look(w.cr, Watcher), Some(q), Held(w, Watcher))
  {
    Mine(care, w, Watcher);
    TopInputsOk(care, Look(w.cr, Watcher), w.pass[Watcher], Held(w, Watcher), main, url, prom, copy,
                if Own(Watcher) in copy.fins then SubSecret else PromUpdate);
  }

  lemma TopInputsCopies(w: World, p: Pass, f: Flow, copy: Obj, next: Stage)
    requires Readable(w, Prometheus, Found(copy)) && (next == SubSecret || next == PromUpdate)
    ensures CopiesOk(w, Follow(p.(copy := Some(copy)), f, next))
  {}

  lemma TopInputsKeeps(care: Care, w: World, main: SecretRead, url: SecretRead, prom: SecretRead, copy: Obj)
    requires Inv(care, w) && (care == Shield ==> !PhantomProm(w, main, url, prom, copy))
    ensures Inv(care, TopInputsPass(w, main, url, prom, copy))
  {
    if At(w, Watcher, TopInputs) && Readable(w, Prometheus, Found(copy)) {
      var p, f := w.pass[Watcher], TopInputStage(w.pass[Watcher].st, main, url, prom);
      var next := if Own(Watcher) in copy.fins then SubSecret else PromUpdate;
      var q := Follow(p.(copy := Some(copy)), f, next);
      TopInputsJudged(care, w, main, url, prom, copy, q);
      TopInputsCopies(w, p, f, copy, next);
      PassStep(w, Watcher, q, Judge(care));
    }
  }

  lemma PromUpdateOk(care: Care, c: Option<CR>, p: Pass, held: set<Shared>, after: set<Shared>, ok: bool)
    requires KindInv(care, Watcher, c, Some(p), held) && p.pc == Working(PromUpdate)
    requires (after == held || after == held + {Prometheus}) && (ok ==> Prometheus in after)
    ensures KindInv(care, Watcher, c, Some(Follow(p, PromUpdateStage(p.st, ok), SubSecret)), after)
  {
    Widened(care, Watcher, c, p, held, after, Prometheus);
    PromUpdateSmooth(care, p, c, held, after, ok);
    FollowOk(care, Watcher, p, c, after, PromUpdateStage(p.st, ok), SubSecret);
  }

  lemma UpdatePrometheusJudged(care: Care, w: World, after: set<Shared>, ok: bool)
    requires Inv(care, w) && At(w, Watcher, PromUpdate)
    requires (after == Held(w, Watcher) || after == Held(w, Watcher) + {Prometheus}) && (ok ==> Prometheus in after)
    ensures var p := w.pass[Watcher];
      Judge(care)(Watcher, Look(w.cr, Watcher), Some(Follow(p, PromUpdateStage(p.st, ok), SubSecret)), after)
  {
    Mine(care, w, Watcher);
    PromUpdateOk(care, Look(w.cr, Watcher), w.pass[Watcher], Held(w, Watcher), after, ok);
  }

  lemma UpdatePrometheusKeeps(care: Care, w: World, wr: Write)
    requires Inv(care, w)
    ensures Inv(care, UpdatePrometheus(w, wr))
  {
    if At(w, Watcher, PromUpdate) {
      Mine(care, w, Watcher);
      AddOwnFacts(care, w, Watcher, Prometheus, wr);
      var p := w.pass[Watcher];
      var (u, ok) := AddOwnTo(w, Watcher, Prometheus, wr);
      UpdatePrometheusJudged(care, w, Held(u, Watcher), ok);
      ObjectStep(w, u, Watcher, Follow(p, PromUpdateStage(p.st, ok), SubSecret), Judge(care));
    }
  }

  lemma KeystoneOk(care: Care, c: Option<CR>, p: Pass, held: set<Shared>, after: set<Shared>, reply: ObjectReply)
    requires KindInv(care, Watcher, c, Some(p), held) && p.pc == Working(Keystone)
    requires (after == held || after == held + {KeystoneService}) && (reply.ObjectIs? ==> KeystoneService in after)
    ensures KindInv(care, Watcher, c, Some(Follow(p, KeystoneStage(p.st, reply), TopConfig)), after)
  {
    Widened(care, Watcher, c, p, held, after, KeystoneService);
    KeystoneSmooth(care, p, c, held, after, reply);
    FollowOk(care, Watcher, p, c, after, KeystoneStage(p.st, reply), TopConfig);
  }

  lemma KeystoneJudged(care: Care, w: World, after: set<Shared>, reply: ObjectReply)
    requires Inv(care, w) && At(w, Watcher, Keystone)
    requires after == Held(w, Watcher) || after == Held(w, Watcher) + {KeystoneService}
    requires reply.ObjectIs? ==> KeystoneService in after
    ensures var p := w.pass[Watcher];
      Judge(care)(Watcher, Look(w.cr, Watcher), Some(Follow(p, KeystoneStage(p.st, reply), TopConfig)), after)
  {
    Mine(care, w, Watcher);
    KeystoneOk(care, Look(w.cr, Watcher), w.pass[Watcher], Held(w, Watcher), after, reply);
  }

  lemma KeystoneKeeps(care: Care, w: World, wr: Write, others: set<nat>, m: Option<State>)
    requires Inv(care, w)
    ensures Inv(care, KeystonePass(w, wr, others, m))
  {
    if At(w, Watcher, Keystone) {
      var p := w.pass[Watcher];
      var r := if wr.applied then Register(w, Watcher, KeystoneService, others) else None;
      var u := if r.Some? then r.value else w;
      var reply := if r.Some? && wr.ok then ObjectIs(m, 0) else ObjectFailed;
      if r.Some? {
        RegisterFacts(care, w, Watcher, KeystoneService, others);
      }
      KeystoneJudged(care, w, Held(u, Watcher), reply);
      ObjectStep(w, u, Watcher, Follow(p, KeystoneStage(p.st, reply), TopConfig), Judge(care));
    }
  }

  lemma JobsAside(care: Care, w: World, jobs: map<Digest, JobPhase>)
    requires Inv(care, w)
    ensures Inv(care, w.(jobs := jobs)) && Held(w.(jobs := jobs), Watcher) == Held(w, Watcher)
  {
    Mine(care, w, Watcher);
    LocalStep(w, w.(jobs := jobs), Watcher, Look(w.cr, Watcher), Look(w.pass, Watcher), Judge(care));
  }

  lemma DbSyncKeeps(care: Care, w: World, after: Delay)
    requires Inv(care, w)
    ensures Inv(care, DbSyncPass(w, after))
  {
    if At(w, Watcher, DbSync) && w.pass[Watcher].snap.spec.Parent? {
      AtWork(care, w, Watcher, DbSync);
      var p := w.pass[Watcher];
      var h := JobHash(p.snap.spec.w);
      var reply := JobReplyOf(w, p, h, after);
      var u := w.(jobs := if p.st.hash != Some(h) && h !in w.jobs then w.jobs[h := Running] else w.jobs);
      DbSyncSmooth(care, p, Look(w.cr, Watcher), Held(w, Watcher), h, reply);
      JobsAside(care, w, u.jobs);
      Following(care, u, Watcher, DbSyncStage(p.st, h, reply), Cron);
      assert DbSyncPass(w, after) == SetPass(u, Watcher, Follow(p, DbSyncStage(p.st, h, reply), Cron));
    }
  }

  lemma DropDbKeeps(care: Care, w: World, ok: bool)
    requires Inv(care, w)
    ensures Inv(care, DropDbPass(w, ok))
  {
    if Watcher in w.pass && w.pass[Watcher].pc == DropDb {
      Mine(care, w, Watcher);
      PassStep(w, Watcher, DropDbPass(w, ok).pass[Watcher], Judge(care));
    }
  }

  lemma LocalTopKeeps(care: Care, w: World, t: TopAct)
    requires Inv(care, w)
    requires t.DoDatabases? || t.DoSubSecret? || t.DoTopConfig? || t.DoCron? || t.DoExposeRoutes? || t.DoTopFinish?
    ensures Inv(care, TopStep(w, t))
  {
    var c, held := Look(w.cr, Watcher), Held(w, Watcher);
    match t
    case DoDatabases(d, m) =>
      if At(w, Watcher, Databases) {
        AtWork(care, w, Watcher, Databases);
        DatabasesSmooth(care, w.pass[Watcher], c, held, d, m);
        Following(care, w, Watcher, DatabasesStage(w.pass[Watcher].st, d, m), TopInputs);
      }
    case DoSubSecret(ok) =>
      if At(w, Watcher, SubSecret) {
        AtWork(care, w, Watcher, SubSecret);
        SubSecretSmooth(care, w.pass[Watcher], c, held, ok);
        Following(care, w, Watcher, SubSecretStage(w.pass[Watcher].st, ok), Keystone);
      }
    case DoTopConfig(ok) =>
      if At(w, Watcher, TopConfig) {
        AtWork(care, w, Watcher, TopConfig);
        TopConfigSmooth(care, w.pass[Watcher], c, held, ok);
        Following(care, w, Watcher, TopConfigStage(w.pass[Watcher].st, ok), DbSync);
      }
    case DoCron(ok) =>
      if At(w, Watcher, Cron) {
        AtWork(care, w, Watcher, Cron);
        CronSmooth(care, w.pass[Watcher], c, held, ok);
        Following(care, w, Watcher, CronStage(w.pass[Watcher].st, ok), Ensure(Api));
      }
    case DoExposeRoutes(r) =>
      if At(w, Watcher, ExposeRoutes) {
        AtWork(care, w, Watcher, ExposeRoutes);
        RoutesSmooth(care, w.pass[Watcher], c, held, r);
        Following(care, w, Watcher, ExposeRoutesStage(w.pass[Watcher].st, r), Ensure(Engine));
      }
    case DoTopFinish(ok) =>
      if At(w, Watcher, TopFinish) {
        AtWork(care, w, Watcher, TopFinish);
        TopFinishSmooth(care, w.pass[Watcher], c, held, ok);
        Following(care, w, Watcher, TopFinalStage(w.pass[Watcher].st, ok), TopFinish);
      }
  }

  lemma TopKeeps(care: Care, w: World, t: TopAct)
    requires Inv(care, w) && Allowed(care, w, WatcherDoes(t))
    ensures Inv(care, TopStep(w, t))
  {
    match t
    case DoTopInputs(main, url, prom, copy) => TopInputsKeeps(care, w, main, url, prom, copy);
    case DoPromUpdate(wr) => UpdatePrometheusKeeps(care, w, wr);
    case DoKeystone(wr, others, m) => KeystoneKeeps(care, w, wr, others, m);
    case DoDbSync(after) => DbSyncKeeps(care, w, after);
    case DoEnsure(child, wr, skipReady) => EnsureKeeps(care, w, child, wr, skipReady);
    case DoDropDb(ok) => DropDbKeeps(care, w, ok);
    case DoDatabases(_, _) => LocalTopKeeps(care, w, t);
    case DoSubSecret(_) => LocalTopKeeps(care, w, t);
    case DoTopConfig(_) => LocalTopKeeps(care, w, t);
    case DoCron(_) => LocalTopKeeps(care, w, t);
    case DoExposeRoutes(_) => LocalTopKeeps(care, w, t);
    case DoTopFinish(_) => LocalTopKeeps(care, w, t);
  }
}
