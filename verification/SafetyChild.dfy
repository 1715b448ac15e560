/** The working stages of the child controllers keep the invariant. */
module SafetyChild {
  import opened Base
  import opened Conditions
  import opened Resources
  import opened Stages
  import opened World
  import opened Invariants
  import opened Frames
  import opened Safety

  /** A flow is smooth when what it hands on fits the next stage, or what it stops with is fit to be
      written. */
  predicate Smooth(care: Care, k: Kind, p: Pass, f: Flow, next: Stage, held: set<Shared>) {
    match f
    case Go(st) =>
      && st.observed == p.st.observed && Full(k, st.conds) && Proven(k, st, p.trace)
      && Fits(k, next) && !Is(st.conds, Ready)
      && (k != Watcher ==> st.hash == p.st.hash)
      && (if k == Api && next == Finish then Chain(k, st.conds) else Upto(k, st.conds, Level(k, next)))
      && (next != MemUpdate ==> Shielded(care, k, st.conds, held))
      && (care == Shield && next == SubSecret ==> Prometheus in held)
      && (care == Shield && next == TopConfig ==> KeystoneService in held)
    case Halt(st, _) =>
      && st.observed == p.st.observed && Full(k, st.conds) && Proven(k, st, p.trace)
      && Honest(k, st.conds) && Shielded(care, k, st.conds, held)
  }

  lemma FollowOk(care: Care, k: Kind, p: Pass, c: Option<CR>, held: set<Shared>, f: Flow, next: Stage)
    requires KindInv(care, k, c, Some(p), held) && p.pc.Working?
    requires Smooth(care, k, p, f, next, held)
    ensures KindInv(care, k, c, Some(Follow(p, f, next)), held)
  {}


  lemma InputsSmooth(care: Care, k: Kind, p: Pass, c: Option<CR>, held: set<Shared>, main: SecretRead, prom: SecretRead)
    requires WorkOk(care, k, p, c, held, Inputs)
    ensures Smooth(care, k, p, InputStage(k, p.st, main, prom, REQUEUE), MemRead, held)
  {}

  lemma MemReadSmooth(care: Care, k: Kind, p: Pass, c: Option<CR>, held: set<Shared>, m: MemReply, next: Stage)
    requires WorkOk(care, k, p, c, held, MemRead)
    requires next == MemUpdate || (next == Configure && (care == Shield && m.MemReady? ==> Memcached in held))
    ensures Smooth(care, k, p, MemStage(p.st, m), next, held)
  {}

  lemma MemUpdateSmooth(care: Care, k: Kind, p: Pass, c: Option<CR>, held: set<Shared>, after: set<Shared>, ok: bool)
    requires WorkOk(care, k, p, c, held, MemUpdate)
    requires held <= after && (ok ==> Memcached in after)
    ensures Smooth(care, k, p, MemUpdateStage(p.st, ok), Configure, after)
  {}

  lemma ConfigSmooth(care: Care, k: Kind, p: Pass, c: Option<CR>, held: set<Shared>, r: ConfigReply)
    requires WorkOk(care, k, p, c, held, Configure)
    ensures Smooth(care, k, p, ConfigStage(p.st, r), CheckTls, held)
  {}

  lemma TlsSmooth(care: Care, k: Kind, p: Pass, c: Option<CR>, held: set<Shared>, t: TlsReply)
    requires WorkOk(care, k, p, c, held, CheckTls)
    ensures Smooth(care, k, p, TlsStage(k, p.st, t), CheckHash, held)
  {}

  lemma HashSmooth(care: Care, k: Kind, p: Pass, c: Option<CR>, held: set<Shared>, h: Digest)
    requires WorkOk(care, k, p, c, held, CheckHash)
    ensures Smooth(care, k, p, HashStage(p.st, h), Deploy, held)
  {}

  lemma ExposeSmooth(care: Care, k: Kind, p: Pass, c: Option<CR>, held: set<Shared>, s: ServiceReply)
    requires WorkOk(care, k, p, c, held, Expose)
    ensures Smooth(care, k, p, ExposeStage(p.st, s), Publish, held)
  {}

  lemma PublishSmooth(care: Care, k: Kind, p: Pass, c: Option<CR>, held: set<Shared>, after: set<Shared>, r: ObjectReply)
    requires WorkOk(care, k, p, c, held, Publish)
    requires held <= after && (r.ObjectIs? ==> KeystoneEndpoint in after)
    ensures Smooth(care, k, p, EndpointStage(p.st, r), Finish, after)
  {}

  lemma FinishSmooth(care: Care, k: Kind, p: Pass, c: Option<CR>, held: set<Shared>)
    requires WorkOk(care, k, p, c, held, Finish)
    ensures Smooth(care, k, p, FinalStage(p.st), Finish, held)
  {
    if AllSubTrue(p.st.conds) {
      PutReady(care, k, p.st, True, p.trace, held);
    }
  }

  lemma DeployShape(k: Kind, st: Status, replicas: nat, r: StsReply)
    requires DeployStage(k, st, replicas, r).Halt?
    ensures var d := DeployStage(k, st, replicas, r).st;
      && DeploymentReady in d.conds && d.conds[DeploymentReady] != True
      && d == Put(st.(ready := d.ready), DeploymentReady, d.conds[DeploymentReady])
  {}

  /** A deployment condition that is not True changes no claim of a pass that has not deployed. */
  lemma NotDeployed(care: Care, k: Kind, a: Status, b: Status, t: Trace, held: set<Shared>)
    requires k != Watcher && Full(k, a.conds) && !Is(a.conds, Ready) && Upto(k, a.conds, Level(k, Deploy))
    requires Shielded(care, k, a.conds, held)
    requires DeploymentReady in b.conds && b.conds[DeploymentReady] != True
    requires b.conds == a.conds[DeploymentReady := b.conds[DeploymentReady]]
    ensures Full(k, b.conds) && Honest(k, b.conds) && Shielded(care, k, b.conds, held) && Proven(k, b, t)
  {}

  lemma DeployStops(care: Care, k: Kind, p: Pass, c: Option<CR>, held: set<Shared>, replicas: nat, r: StsReply,
                    next: Stage)
    requires WorkOk(care, k, p, c, held, Deploy) && DeployStage(k, p.st, replicas, r).Halt?
    ensures Smooth(care, k, p, DeployStage(k, p.st, replicas, r), next, held)
  {
    DeployShape(k, p.st, replicas, r);
    NotDeployed(care, k, p.st, DeployStage(k, p.st, replicas, r).st, p.trace, held);
  }

  lemma DeployLevel(care: Care, k: Kind, a: Status, b: Status, held: set<Shared>)
    requires k != Watcher && Full(k, a.conds) && !Is(a.conds, Ready) && Upto(k, a.conds, Level(k, Deploy))
    requires Shielded(care, k, a.conds, held) && b.conds == a.conds[DeploymentReady := True]
    ensures var g := if k == Api then Expose else Finish;
      Full(k, b.conds) && !Is(b.conds, Ready) && Upto(k, b.conds, Level(k, g)) && Shielded(care, k, b.conds, held)
  {}

  /** A deployment is reported ready only with sound evidence from this very pass. */
  lemma DeployGoes(care: Care, k: Kind, p: Pass, c: Option<CR>, held: set<Shared>, o: Sts)
    requires WorkOk(care, k, p, c, held, Deploy) && p.snap.spec.Child?
    requires o.work == WorkloadOf(p.snap.spec.s, o.work.ca, o.work.configHash)
    requires DeployStage(k, p.st, p.snap.spec.s.replicas, StsIs(o)).Go?
    ensures var g := if k == Api then Expose else Finish;
      WorkOk(care, k, Deployed(k, p, p.snap.spec.s, o, None), c, held, g)
  {
    var st := DeployStage(k, p.st, p.snap.spec.s.replicas, StsIs(o)).st;
    DeployLevel(care, k, p.st, st, held);
    assert Sound(Evidence(p.snap.gen, p.snap.spec.s, o));
  }

  lemma DeployedOk(care: Care, k: Kind, p: Pass, c: Option<CR>, held: set<Shared>, o: Sts, problem: Option<StsReply>)
    requires KindInv(care, k, c, Some(p), held) && p.pc == Working(Deploy) && p.snap.spec.Child?
    requires o.work == WorkloadOf(p.snap.spec.s, o.work.ca, o.work.configHash)
    requires problem.Some? ==> !problem.value.StsIs?
    ensures KindInv(care, k, c, Some(Deployed(k, p, p.snap.spec.s, o, problem)), held)
  {
    var r := if problem.Some? then problem.value else StsIs(o);
    var f := DeployStage(k, p.st, p.snap.spec.s.replicas, r);
    var next := if k == Api then Expose else Finish;
    if f.Halt? {
      DeployStops(care, k, p, c, held, p.snap.spec.s.replicas, r, next);
      FollowOk(care, k, p, c, held, f, next);
    } else {
      DeployGoes(care, k, p, c, held, o);
    }
  }

  // On the cluster

  lemma Following(care: Care, w: World, k: Kind, f: Flow, next: Stage)
    requires Inv(care, w) && k in w.pass && w.pass[k].pc.Working?
    requires Smooth(care, k, w.pass[k], f, next, Held(w, k))
    requires next != MemUpdate && next != PromUpdate
    ensures Inv(care, SetPass(w, k, Follow(w.pass[k], f, next)))
  {
    Mine(care, w, k);
    FollowOk(care, k, w.pass[k], Look(w.cr, k), Held(w, k), f, next);
    PassStep(w, k, Follow(w.pass[k], f, next), Judge(care));
  }

  lemma AtWork(care: Care, w: World, k: Kind, g: Stage)
    requires Inv(care, w) && At(w, k, g)
    ensures WorkOk(care, k, w.pass[k], Look(w.cr, k), Held(w, k), g)
  {
    Mine(care, w, k);
  }

  lemma MemReadOk(care: Care, k: Kind, c: Option<CR>, p: Pass, held: set<Shared>, m: MemReply, copy: Option<Obj>, next: Stage)
    requires KindInv(care, k, c, Some(p), held) && p.pc == Working(MemRead)
    requires next == MemUpdate || (next == Configure && (care == Shield && m.MemReady? ==> Memcached in held))
    ensures KindInv(care, k, c, Some(Follow(p.(copy := copy), MemStage(p.st, m), next)), held)
  {
    var q := p.(copy := copy);
    MemReadSmooth(care, k, q, c, held, m, next);
    FollowOk(care, k, q, c, held, MemStage(p.st, m), next);
  }

  lemma ReadMemcachedJudged(care: Care, w: World, k: Kind, r: Read, ready: bool, copy: Option<Obj>, next: Stage)
    requires Inv(care, w) && At(w, k, MemRead) && Readable(w, Memcached, r)
    requires care == Shield ==> !PhantomMem(w, k, r, ready)
    requires next == if r.Found? && Own(k) !in r.copy.fins then MemUpdate else Configure
    ensures var p := w.pass[k];
      Judge(care)(k, Look(w.cr, k), Some(Follow(p.(copy := copy), MemStage(p.st, MemReplyOf(r, ready)), next)), Held(w, k))
  {
    Mine(care, w, k);
    MemReadOk(care, k, Look(w.cr, k), w.pass[k], Held(w, k), MemReplyOf(r, ready), copy, next);
  }

  lemma ReadMemcachedCopies(w: World, p: Pass, f: Flow, r: Read, next: Stage)
    requires Readable(w, Memcached, r) && (next == MemUpdate || next == Configure)
    ensures CopiesOk(w, Follow(p.(copy := if r.Found? then Some(r.copy) else None), f, next))
  {}

  lemma ReadMemcachedKeeps(care: Care, w: World, k: Kind, r: Read, ready: bool)
    requires Inv(care, w) && (care == Shield ==> !PhantomMem(w, k, r, ready))
    ensures Inv(care, ReadMemcached(w, k, r, ready))
  {
    if At(w, k, MemRead) && Readable(w, Memcached, r) {
      var p, f := w.pass[k], MemStage(w.pass[k].st, MemReplyOf(r, ready));
      var copy := if r.Found? then Some(r.copy) else None;
      var next := if r.Found? && Own(k) !in r.copy.fins then MemUpdate else Configure;
      ReadMemcachedJudged(care, w, k, r, ready, copy, next);
      ReadMemcachedCopies(w, p, f, r, next);
      PassStep(w, k, Follow(p.(copy := copy), f, next), Judge(care));
    }
  }

  /** Sending the copy back with the own finalizer added changes nobody else's finalizers: the copy
      is the stored version, or the store refuses it. */
  lemma AddOwnFacts(care: Care, w: World, k: Kind, s: Shared, wr: Write)
    requires Inv(care, w) && k in w.pass
    requires w.pass[k].copy.Some? ==> CopyOk(w, s, w.pass[k].copy.value)
    ensures var (u, ok) := AddOwnTo(w, k, s, wr);
      && u.cr == w.cr && u.pass == w.pass && ObjStep(w, u)
      && (forall t :: t in u.obj ==> u.obj[t].rv <= u.rev)
      && (forall j :: j != k ==> Held(u, j) == Held(w, j))
      && (Held(u, k) == Held(w, k) || Held(u, k) == Held(w, k) + {s})
      && (ok ==> s in Held(u, k))
  {
    if w.pass[k].copy.Some? {
      var fins := w.pass[k].copy.value.fins + {Own(k)};
      if wr.applied && Accepts(w, s, w.pass[k].copy.value, fins) {
        assert Owners(fins) - {Own(k)} == Owners(w.obj[s].fins) - {Own(k)};
        FinsStep(w, k, s, w.obj[s].deleting, fins);
      }
    }
  }

  lemma MemUpdateOk(care: Care, k: Kind, c: Option<CR>, p: Pass, held: set<Shared>, after: set<Shared>, ok: bool)
    requires KindInv(care, k, c, Some(p), held) && p.pc == Working(MemUpdate)
    requires (after == held || after == held + {Memcached}) && (ok ==> Memcached in after)
    ensures KindInv(care, k, c, Some(Follow(p, MemUpdateStage(p.st, ok), Configure)), after)
  {
    Widened(care, k, c, p, held, after, Memcached);
    MemUpdateSmooth(care, k, p, c, held, after, ok);
    FollowOk(care, k, p, c, after, MemUpdateStage(p.st, ok), Configure);
  }

  lemma UpdateMemcachedJudged(care: Care, w: World, k: Kind, after: set<Shared>, ok: bool)
    requires Inv(care, w) && At(w, k, MemUpdate)
    requires (after == Held(w, k) || after == Held(w, k) + {Memcached}) && (ok ==> Memcached in after)
    ensures var p := w.pass[k];
      Judge(care)(k, Look(w.cr, k), Some(Follow(p, MemUpdateStage(p.st, ok), Configure)), after)
  {
    Mine(care, w, k);
    MemUpdateOk(care, k, Look(w.cr, k), w.pass[k], Held(w, k), after, ok);
  }

  lemma UpdateMemcachedKeeps(care: Care, w: World, k: Kind, wr: Write)
    requires Inv(care, w)
    ensures Inv(care, UpdateMemcached(w, k, wr))
  {
    if At(w, k, MemUpdate) {
      Mine(care, w, k);
      AddOwnFacts(care, w, k, Memcached, wr);
      var (u, ok) := AddOwnTo(w, k, Memcached, wr);
      UpdateMemcachedJudged(care, w, k, Held(u, k), ok);
      ObjectStep(w, u, k, Follow(w.pass[k], MemUpdateStage(w.pass[k].st, ok), Configure), Judge(care));
    }
  }

  /** A working pass is registered, so its kind may hold more. */
  lemma Widened(care: Care, k: Kind, c: Option<CR>, p: Pass, held: set<Shared>, after: set<Shared>, s: Shared)
    requires KindInv(care, k, c, Some(p), held) && p.pc.Working?
    requires s in Uses(k) && (after == held || after == held + {s})
    ensures KindInv(care, k, c, Some(p), after)
  {}

  lemma DeployJudged(care: Care, w: World, k: Kind, ca: Option<CaCert>, applied: bool, problem: Option<StsReply>, q: Pass)
    requires Inv(care, w) && MayDeploy(w, k, applied, problem)
    requires var p := w.pass[k];
      q == Deployed(k, p, p.snap.spec.s, Patched(w, k, WorkloadOf(p.snap.spec.s, ca, p.st.hash.value)), problem)
    ensures Judge(care)(k, Look(w.cr, k), Some(q), Held(w, k)) && CopiesOk(w, q)
  {
    Mine(care, w, k);
    var p := w.pass[k];
    DeployedOk(care, k, p, Look(w.cr, k), Held(w, k), Patched(w, k, WorkloadOf(p.snap.spec.s, ca, p.st.hash.value)), problem);
  }

  lemma DeployTouches(w: World, k: Kind, ca: Option<CaCert>, applied: bool, problem: Option<StsReply>)
    requires MayDeploy(w, k, applied, problem)
    ensures var p := w.pass[k];
      Touches(w, DeployPass(w, k, ca, applied, problem), k, Look(w.cr, k),
              Some(Deployed(k, p, p.snap.spec.s, Patched(w, k, WorkloadOf(p.snap.spec.s, ca, p.st.hash.value)), problem)))
  {}

  lemma DeployKeeps(care: Care, w: World, k: Kind, ca: Option<CaCert>, applied: bool, problem: Option<StsReply>)
    requires Inv(care, w)
    ensures Inv(care, DeployPass(w, k, ca, applied, problem))
  {
    if MayDeploy(w, k, applied, problem) {
      var p := w.pass[k];
      var q := Deployed(k, p, p.snap.spec.s, Patched(w, k, WorkloadOf(p.snap.spec.s, ca, p.st.hash.value)), problem);
      DeployJudged(care, w, k, ca, applied, problem, q);
      DeployTouches(w, k, ca, applied, problem);
      LocalStep(w, DeployPass(w, k, ca, applied, problem), k, Look(w.cr, k), Some(q), Judge(care));
    }
  }

  /** Registering on a Keystone object leaves the other kinds' finalizers alone. */
  lemma RegisterFacts(care: Care, w: World, k: Kind, s: Shared, others: set<nat>)
    requires Inv(care, w) && Register(w, k, s, others).Some?
    ensures var u := Register(w, k, s, others).value;
      && u.cr == w.cr && u.pass == w.pass && ObjStep(w, u)
      && (forall t :: t in u.obj ==> u.obj[t].rv <= u.rev)
      && (forall j :: j != k ==> Held(u, j) == Held(w, j))
      && Held(u, k) == Held(w, k) + {s}
  {
    if s !in w.obj {
      FinsStep(w, k, s, false, {Own(k)});
    } else if Own(k) in w.obj[s].fins {
      assert s in Held(w, k);
    } else {
      var fins := Foreigners(others) + Owners(w.obj[s].fins) + {Own(k)};
      assert Owners(fins) - {Own(k)} == Owners(w.obj[s].fins) - {Own(k)};
      FinsStep(w, k, s, false, fins);
    }
  }

  lemma PublishOk(care: Care, k: Kind, c: Option<CR>, p: Pass, held: set<Shared>, after: set<Shared>, reply: ObjectReply)
    requires KindInv(care, k, c, Some(p), held) && p.pc == Working(Publish)
    requires (after == held || after == held + {KeystoneEndpoint}) && (reply.ObjectIs? ==> KeystoneEndpoint in after)
    ensures KindInv(care, k, c, Some(Follow(p, EndpointStage(p.st, reply), Finish)), after)
  {
    Widened(care, k, c, p, held, after, KeystoneEndpoint);
    PublishSmooth(care, k, p, c, held, after, reply);
    FollowOk(care, k, p, c, after, EndpointStage(p.st, reply), Finish);
  }

  lemma PublishJudged(care: Care, w: World, k: Kind, after: set<Shared>, reply: ObjectReply)
    requires Inv(care, w) && At(w, k, Publish)
    requires after == Held(w, k) || after == Held(w, k) + {KeystoneEndpoint}
    requires reply.ObjectIs? ==> KeystoneEndpoint in after
    ensures var p := w.pass[k];
      Judge(care)(k, Look(w.cr, k), Some(Follow(p, EndpointStage(p.st, reply), Finish)), after)
  {
    Mine(care, w, k);
    PublishOk(care, k, Look(w.cr, k), w.pass[k], Held(w, k), after, reply);
  }

  lemma PublishShape(w: World, k: Kind, wr: Write, others: set<nat>, m: Option<State>, n: nat)
    requires At(w, k, Publish)
    ensures var r := if wr.applied then Register(w, k, KeystoneEndpoint, others) else None;
      PublishPass(w, k, wr, others, m, n) ==
      SetPass(if r.Some? then r.value else w, k,
              Follow(w.pass[k], EndpointStage(w.pass[k].st, if r.Some? && wr.ok then ObjectIs(m, n) else ObjectFailed), Finish))
  {}

  lemma PublishRegistered(care: Care, w: World, k: Kind, others: set<nat>, reply: ObjectReply)
    requires Inv(care, w) && At(w, k, Publish) && Register(w, k, KeystoneEndpoint, others).Some?
    ensures Inv(care, SetPass(Register(w, k, KeystoneEndpoint, others).value, k,
                              Follow(w.pass[k], EndpointStage(w.pass[k].st, reply), Finish)))
  {
    var u := Register(w, k, KeystoneEndpoint, others).value;
    RegisterFacts(care, w, k, KeystoneEndpoint, others);
    PublishJudged(care, w, k, Held(u, k), reply);
    ObjectStep(w, u, k, Follow(w.pass[k], EndpointStage(w.pass[k].st, reply), Finish), Judge(care));
  }

  lemma PublishKeeps(care: Care, w: World, k: Kind, wr: Write, others: set<nat>, m: Option<State>, n: nat)
    requires Inv(care, w)
    ensures Inv(care, PublishPass(w, k, wr, others, m, n))
  {
    if At(w, k, Publish) {
      PublishShape(w, k, wr, others, m, n);
      if wr.applied && Register(w, k, KeystoneEndpoint, others).Some? {
        PublishRegistered(care, w, k, others, if wr.ok then ObjectIs(m, n) else ObjectFailed);
      } else {
        PublishJudged(care, w, k, Held(w, k), ObjectFailed);
        PassStep(w, k, Follow(w.pass[k], EndpointStage(w.pass[k].st, ObjectFailed), Finish), Judge(care));
      }
    }
  }

  /** A stage that only consults the environment. */
  lemma LocalKeeps(care: Care, w: World, k: Kind, stage: Stage, f: Status -> Flow, next: Stage)
    requires Inv(care, w) && next != MemUpdate && next != PromUpdate
    requires At(w, k, stage) ==> Smooth(care, k, w.pass[k], f(w.pass[k].st), next, Held(w, k))
    ensures Inv(care, Local(w, k, stage, f, next))
  {
    if At(w, k, stage) {
      Following(care, w, k, f(w.pass[k].st), next);
    }
  }

  lemma ChildKeeps(care: Care, w: World, k: Kind, a: ChildAct)
    requires Inv(care, w) && Allowed(care, w, ChildDoes(k, a))
    ensures Inv(care, ChildStep(w, k, a))
  {
    match a
    case DoMemRead(r, ready) => ReadMemcachedKeeps(care, w, k, r, ready);
    case DoMemUpdate(wr) => UpdateMemcachedKeeps(care, w, k, wr);
    case DoDeploy(ca, applied, problem) => DeployKeeps(care, w, k, ca, applied, problem);
    case DoPublish(wr, others, m, n) => PublishKeeps(care, w, k, wr, others, m, n);
    case _ => ChildLocalKeeps(care, w, k, a);
  }

  lemma ChildLocalKeeps(care: Care, w: World, k: Kind, a: ChildAct)
    requires Inv(care, w) && !a.DoMemRead? && !a.DoMemUpdate? && !a.DoDeploy? && !a.DoPublish?
    ensures Inv(care, ChildStep(w, k, a))
  {
    if At(w, k, StageOf(a)) {
      AtWork(care, w, k, StageOf(a));
      ActSmooth(care, k, w.pass[k], Look(w.cr, k), Held(w, k), a);
    }
    match a
    case DoInputs(main, prom) =>
      LocalKeeps(care, w, k, Inputs, (st: Status) => InputStage(k, st, main, prom, REQUEUE), MemRead);
    case DoConfigure(c) => LocalKeeps(care, w, k, Configure, (st: Status) => ConfigStage(st, c), CheckTls);
    case DoTls(t) => LocalKeeps(care, w, k, CheckTls, (st: Status) => TlsStage(k, st, t), CheckHash);
    case DoHash(h) => LocalKeeps(care, w, k, CheckHash, (st: Status) => HashStage(st, h), Deploy);
    case DoExpose(s) => LocalKeeps(care, w, k, Expose, (st: Status) => ExposeStage(st, s), Publish);
    case DoFinish => LocalKeeps(care, w, k, Finish, (st: Status) => FinalStage(st), Finish);
  }

  function StageOf(a: ChildAct): Stage {
    match a
    case DoInputs(_, _) => Inputs
    case DoConfigure(_) => Configure
    case DoTls(_) => CheckTls
    case DoHash(_) => CheckHash
    case DoExpose(_) => Expose
    case DoMemRead(_, _) => MemRead
    case DoMemUpdate(_) => MemUpdate
    case DoDeploy(_, _, _) => Deploy
    case DoPublish(_, _, _, _) => Publish
    case DoFinish => Finish
  }

  lemma ActSmooth(care: Care, k: Kind, p: Pass, c: Option<CR>, held: set<Shared>, a: ChildAct)
    requires WorkOk(care, k, p, c, held, StageOf(a))
    ensures match a
      case DoInputs(main, prom) => Smooth(care, k, p, InputStage(k, p.st, main, prom, REQUEUE), MemRead, held)
      case DoConfigure(r) => Smooth(care, k, p, ConfigStage(p.st, r), CheckTls, held)
      case DoTls(t) => Smooth(care, k, p, TlsStage(k, p.st, t), CheckHash, held)
      case DoHash(h) => Smooth(care, k, p, HashStage(p.st, h), Deploy, held)
      case DoExpose(s) => Smooth(care, k, p, ExposeStage(p.st, s), Publish, held)
      case DoFinish => Smooth(care, k, p, FinalStage(p.st), Finish, held)
      case _ => true
  {
    match a
    case DoInputs(main, prom) => InputsSmooth(care, k, p, c, held, main, prom);
    case DoConfigure(r) => ConfigSmooth(care, k, p, c, held, r);
    case DoTls(t) => TlsSmooth(care, k, p, c, held, t);
    case DoHash(h) => HashSmooth(care, k, p, c, held, h);
    case DoExpose(s) => ExposeSmooth(care, k, p, c, held, s);
    case DoFinish => FinishSmooth(care, k, p, c, held);
    case _ =>
  }
}
