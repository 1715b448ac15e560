/** The interleaved model refines the sequential one: a child's pass that nobody disturbs goes, step
    by step, to the very status and StatefulSet that the sequential pass computes. */
module Refinement {
  import opened Base
  import opened Conditions
  import opened Resources
  import opened Stages
  import opened World
  import E = Endpoints
  import S = SubPass

  /** The steps of one pass, one after the other. */
  function Does(w: World, k: Kind, acts: seq<ChildAct>): World
    decreases |acts|
  {
    if acts == [] then w else Does(ChildStep(w, k, acts[0]), k, acts[1..])
  }

  function AnswerOf(w: World, r: S.Replies): Read {
    match r.mem
    case MemNotFound => Absent
    case MemError => ReadFailed
    case _ => if Memcached in w.obj then Found(w.obj[Memcached]) else Absent
  }

  function PassHash(c: S.Sub, r: S.Replies): Digest {
    if S.InputsRead(c, r) && (c.kind == Api ==> S.TlsReplyOf(c, r) == TlsOk) then OfEnv(S.ConfigVars(c, r))
    else OfText("")
  }

  function Problem(d: StsReply): Option<StsReply> {
    if d.StsIs? then None else Some(d)
  }

  function DeployAct(c: S.Sub, r: S.Replies, h: Digest): ChildAct {
    DoDeploy(S.PodCa(c, r), true, Problem(r.deploy(WorkloadOf(c.spec, S.PodCa(c, r), h))))
  }

  function PublishAct(c: S.Sub, r: S.Replies): ChildAct {
    var p := r.publish(E.Urls(c.spec, r.ports, r.rule));
    if p.ObjectIs? then DoPublish(Write(true, true), {}, p.mirrored, p.requeue)
    else DoPublish(Write(false, false), {}, None, 0)
  }

  function ExposeActs(c: S.Sub, r: S.Replies): seq<ChildAct> {
    [DoExpose(E.ExposeAll(c.spec, r.order, r.ports, r.rule)), PublishAct(c, r), DoFinish]
  }

  function DeployActs(c: S.Sub, r: S.Replies, h: Digest): seq<ChildAct> {
    [DeployAct(c, r, h)] + ExposeActs(c, r)
  }

  function ConfigActs(c: S.Sub, r: S.Replies): seq<ChildAct> {
    [DoConfigure(r.config), DoTls(S.TlsReplyOf(c, r)), DoHash(PassHash(c, r))] + DeployActs(c, r, PassHash(c, r))
  }

  function MemActs(w: World, c: S.Sub, r: S.Replies): seq<ChildAct> {
    [DoMemRead(AnswerOf(w, r), r.mem.MemReady?), DoMemUpdate(Write(r.memUpdateOk, r.memUpdateOk))] + ConfigActs(c, r)
  }

  function Acts(w: World, c: S.Sub, r: S.Replies): seq<ChildAct> {
    [DoInputs(S.MainRead(c, r), S.PromRead(r))] + MemActs(w, c, r)
  }

  /** The replies tell the truth about Memcached ... */
  predicate MemTrue(w: World, k: Kind, r: S.Replies) {
    && (r.mem.MemReady? || r.mem.MemNotReady? ==>
          && Memcached in w.obj && w.obj[Memcached].rv <= w.rev && r.memOwn == (Own(k) in w.obj[Memcached].fins)
          && (r.memUpdateOk ==> !w.obj[Memcached].deleting))
    && (r.mem.MemNotFound? ==> Memcached !in w.obj)
  }

  /** ... about the StatefulSet that is patched ... */
  ghost predicate DeployTrue(w: World, k: Kind, r: S.Replies) {
    forall work :: r.deploy(work).StsIs? ==> r.deploy(work).obj == Patched(w, k, work)
  }

  /** ... and about the Keystone endpoint. */
  ghost predicate PublishTrue(w: World, k: Kind, r: S.Replies) {
    (exists urls :: r.publish(urls).ObjectIs?) ==> Register(w, k, KeystoneEndpoint, {}).Some?
  }

  /** k's pass stands at the stage with this status and the spec of c. */
  predicate Stands(w: World, k: Kind, c: S.Sub, stage: Stage, st: Status) {
    At(w, k, stage) && w.pass[k].st == st && w.pass[k].snap.spec == Child(c.spec) && c.kind == k
  }

  predicate Ended(v: World, k: Kind, st: Status) {
    k in v.pass && v.pass[k].pc == Closing(Keep, FromWork, false) && v.pass[k].st == st
  }

  lemma {:induction false} EndedStays(w: World, k: Kind, acts: seq<ChildAct>)
    requires k in w.pass && w.pass[k].pc.Closing?
    ensures Does(w, k, acts) == w
    decreases |acts|
  {
    if acts != [] {
      EndedStays(ChildStep(w, k, acts[0]), k, acts[1..]);
    }
  }

  /** Where a step with flow f leaves the pass. */
  predicate Lands(v: World, k: Kind, c: S.Sub, f: Flow, next: Stage) {
    match f
    case Go(st) => Stands(v, k, c, next, st)
    case Halt(st, _) => Ended(v, k, st)
  }

  lemma DoesCons(w: World, k: Kind, a: ChildAct, acts: seq<ChildAct>)
    ensures Does(w, k, [a] + acts) == Does(ChildStep(w, k, a), k, acts)
  {
    assert ([a] + acts)[1..] == acts;
  }

  // One step each

  lemma LocalLands(w: World, k: Kind, c: S.Sub, stage: Stage, st: Status, f: Status -> Flow, next: Stage)
    requires Stands(w, k, c, stage, st)
    ensures var v := Local(w, k, stage, f, next); Lands(v, k, c, f(st), next) && v.sts == w.sts && v.obj == w.obj
  {}

  lemma PublishLands(w: World, k: Kind, c: S.Sub, r: S.Replies, st: Status)
    requires Stands(w, k, c, Publish, st) && PublishTrue(w, k, r)
    ensures var v := ChildStep(w, k, PublishAct(c, r));
      Lands(v, k, c, EndpointStage(st, r.publish(E.Urls(c.spec, r.ports, r.rule))), Finish) && v.sts == w.sts
  {
    var p := r.publish(E.Urls(c.spec, r.ports, r.rule));
    if p.ObjectIs? {
      PublishOk(w, k, c, st, p.mirrored, p.requeue);
    } else {
      assert PublishPass(w, k, Write(false, false), {}, None, 0) ==
             SetPass(w, k, Follow(w.pass[k], EndpointStage(st, ObjectFailed), Finish));
    }
  }

  lemma PublishOk(w: World, k: Kind, c: S.Sub, st: Status, m: Option<State>, n: nat)
    requires Stands(w, k, c, Publish, st) && Register(w, k, KeystoneEndpoint, {}).Some?
    ensures var v := PublishPass(w, k, Write(true, true), {}, m, n);
      Lands(v, k, c, EndpointStage(st, ObjectIs(m, n)), Finish) && v.sts == w.sts
  {
    var u := Register(w, k, KeystoneEndpoint, {}).value;
    assert u.pass == w.pass && u.sts == w.sts;
    assert PublishPass(w, k, Write(true, true), {}, m, n) ==
           SetPass(u, k, Follow(w.pass[k], EndpointStage(st, ObjectIs(m, n)), Finish));
  }

  lemma FinishLands(w: World, k: Kind, c: S.Sub, st: Status)
    requires Stands(w, k, c, Finish, st)
    ensures var v := ChildStep(w, k, DoFinish); Lands(v, k, c, FinalStage(st), Finish) && v.sts == w.sts
  {
    LocalLands(w, k, c, Finish, st, (st: Status) => FinalStage(st), Finish);
  }

  // From each stage to the end

  lemma FinishDoes(w: World, k: Kind, c: S.Sub, st: Status)
    requires Stands(w, k, c, Finish, st)
    ensures var v := Does(w, k, [DoFinish]); Ended(v, k, FinalStage(st).st) && v.sts == w.sts
  {
    FinishLands(w, k, c, st);
    assert [DoFinish] == [DoFinish] + [];
    DoesCons(w, k, DoFinish, []);
  }

  lemma PublishDoes(w: World, k: Kind, c: S.Sub, r: S.Replies, st: Status, sent: S.Sent)
    requires Stands(w, k, c, Publish, st) && PublishTrue(w, k, r)
    ensures var v := Does(w, k, [PublishAct(c, r), DoFinish]);
      Ended(v, k, S.FromPublish(c, r, st, sent).st) && v.sts == w.sts
  {
    var a, f := PublishAct(c, r), EndpointStage(st, r.publish(E.Urls(c.spec, r.ports, r.rule)));
    PublishLands(w, k, c, r, st);
    assert [a, DoFinish] == [a] + [DoFinish];
    DoesCons(w, k, a, [DoFinish]);
    if f.Halt? {
      EndedStays(ChildStep(w, k, a), k, [DoFinish]);
    } else {
      FinishDoes(ChildStep(w, k, a), k, c, f.st);
    }
  }

  lemma Skips(w: World, k: Kind, c: S.Sub, st: Status, a: ChildAct)
    requires Stands(w, k, c, Finish, st) && (a.DoExpose? || a.DoPublish?)
    ensures ChildStep(w, k, a) == w
  {}

  lemma ExposeDoes(w: World, k: Kind, c: S.Sub, r: S.Replies, st: Status, sent: S.Sent)
    requires Stands(w, k, c, Expose, st) && PublishTrue(w, k, r)
    ensures var v, g := Does(w, k, ExposeActs(c, r)), ExposeStage(st, E.ExposeAll(c.spec, r.order, r.ports, r.rule));
      Ended(v, k, if g.Halt? then g.st else S.FromPublish(c, r, g.st, sent).st) && v.sts == w.sts
  {
    var s := E.ExposeAll(c.spec, r.order, r.ports, r.rule);
    var a, g, rest := DoExpose(s), ExposeStage(st, s), [PublishAct(c, r), DoFinish];
    LocalLands(w, k, c, Expose, st, (st: Status) => ExposeStage(st, s), Publish);
    assert ExposeActs(c, r) == [a] + rest;
    DoesCons(w, k, a, rest);
    if g.Halt? {
      EndedStays(ChildStep(w, k, a), k, rest);
    } else {
      PublishDoes(ChildStep(w, k, a), k, c, r, g.st, sent);
    }
  }

  lemma FinishDoesLate(w: World, k: Kind, c: S.Sub, r: S.Replies, st: Status)
    requires Stands(w, k, c, Finish, st)
    ensures var v := Does(w, k, ExposeActs(c, r)); Ended(v, k, FinalStage(st).st) && v.sts == w.sts
  {
    var a, b := DoExpose(E.ExposeAll(c.spec, r.order, r.ports, r.rule)), PublishAct(c, r);
    Skips(w, k, c, st, a);
    Skips(w, k, c, st, b);
    assert ExposeActs(c, r) == [a] + ([b] + [DoFinish]);
    DoesCons(w, k, a, [b] + [DoFinish]);
    DoesCons(w, k, b, [DoFinish]);
    FinishDoes(w, k, c, st);
  }

  lemma DeployedLands(w: World, k: Kind, c: S.Sub, st: Status, o: Sts, reply: StsReply)
    requires Stands(w, k, c, Deploy, st) && (reply.StsIs? ==> reply.obj == o)
    ensures var f := DeployStage(k, st, c.spec.replicas, reply);
      Lands(SetPass(w, k, Deployed(k, w.pass[k], c.spec, o, Problem(reply))), k, c, f, if k == Api then Expose else Finish)
  {}

  lemma DeployLands(w: World, k: Kind, c: S.Sub, r: S.Replies, st: Status, h: Digest)
    requires Stands(w, k, c, Deploy, st) && st.hash == Some(h) && DeployTrue(w, k, r)
    ensures var v, work := ChildStep(w, k, DeployAct(c, r, h)), WorkloadOf(c.spec, S.PodCa(c, r), h);
      && Lands(v, k, c, DeployStage(k, st, c.spec.replicas, r.deploy(work)), if k == Api then Expose else Finish)
      && v.sts == w.sts[k := Patched(w, k, work)] && v.obj == w.obj
  {
    var work := WorkloadOf(c.spec, S.PodCa(c, r), h);
    var o, reply := Patched(w, k, work), r.deploy(work);
    var u := w.(sts := w.sts[k := o]);
    assert MayDeploy(w, k, true, Problem(reply)) && Stands(u, k, c, Deploy, st);
    DeployedLands(u, k, c, st, o, reply);
    assert ChildStep(w, k, DeployAct(c, r, h)) == SetPass(u, k, Deployed(k, w.pass[k], c.spec, o, Problem(reply)));
  }

  lemma DeployDoes(w: World, k: Kind, c: S.Sub, r: S.Replies, st: Status, h: Digest, sent: S.Sent)
    requires Stands(w, k, c, Deploy, st) && st.hash == Some(h) && DeployTrue(w, k, r) && PublishTrue(w, k, r)
    ensures var v := Does(w, k, DeployActs(c, r, h));
      && Ended(v, k, S.FromDeploy(c, r, st, h, sent).st)
      && v.sts == w.sts[k := Patched(w, k, WorkloadOf(c.spec, S.PodCa(c, r), h))]
  {
    var a, work := DeployAct(c, r, h), WorkloadOf(c.spec, S.PodCa(c, r), h);
    var f := DeployStage(k, st, c.spec.replicas, r.deploy(work));
    var v := ChildStep(w, k, a);
    DeployLands(w, k, c, r, st, h);
    DoesCons(w, k, a, ExposeActs(c, r));
    if f.Halt? {
      EndedStays(v, k, ExposeActs(c, r));
    } else if k == Api {
      ExposeDoes(v, k, c, r, f.st, sent.(work := Some(work)));
    } else {
      FinishDoesLate(v, k, c, r, f.st);
    }
  }

  /** Where the outcome's StatefulSet is. */
  predicate Delivered(w: World, v: World, k: Kind, o: S.Outcome) {
    && Ended(v, k, o.st)
    && v.sts == if o.sent.work.Some? then w.sts[k := Patched(w, k, o.sent.work.value)] else w.sts
  }

  lemma HashDoes(w: World, k: Kind, c: S.Sub, r: S.Replies, st: Status, h: Digest, sent: S.Sent)
    requires Stands(w, k, c, CheckHash, st) && DeployTrue(w, k, r) && PublishTrue(w, k, r) && sent.work == None
    ensures var i := HashStage(st, h);
      Delivered(w, Does(w, k, [DoHash(h)] + DeployActs(c, r, h)), k,
                if i.Halt? then S.Worked(c, i, sent) else S.FromDeploy(c, r, i.st, h, sent))
  {
    var i, v := HashStage(st, h), ChildStep(w, k, DoHash(h));
    LocalLands(w, k, c, CheckHash, st, (st: Status) => HashStage(st, h), Deploy);
    DoesCons(w, k, DoHash(h), DeployActs(c, r, h));
    if i.Halt? {
      EndedStays(v, k, DeployActs(c, r, h));
    } else {
      DeployDelivers(v, k, c, r, i.st, h, sent);
      SameSts(w, v, k);
    }
  }

  lemma DeployDelivers(w: World, k: Kind, c: S.Sub, r: S.Replies, st: Status, h: Digest, sent: S.Sent)
    requires Stands(w, k, c, Deploy, st) && st.hash == Some(h) && DeployTrue(w, k, r) && PublishTrue(w, k, r)
    ensures Delivered(w, Does(w, k, DeployActs(c, r, h)), k, S.FromDeploy(c, r, st, h, sent))
  {
    DeployDoes(w, k, c, r, st, h, sent);
    DeploySends(c, r, st, h, sent);
  }

  lemma DeploySends(c: S.Sub, r: S.Replies, st: Status, h: Digest, sent: S.Sent)
    ensures S.FromDeploy(c, r, st, h, sent).sent.work == Some(WorkloadOf(c.spec, S.PodCa(c, r), h))
  {}

  lemma SameSts(w: World, v: World, k: Kind)
    requires v.sts == w.sts
    ensures forall work :: Patched(v, k, work) == Patched(w, k, work)
  {}

  lemma TlsDoes(w: World, k: Kind, c: S.Sub, r: S.Replies, st: Status, sent: S.Sent)
    requires Stands(w, k, c, CheckTls, st) && DeployTrue(w, k, r) && PublishTrue(w, k, r)
    requires S.InputsRead(c, r) && sent.work == None
    ensures var g, h := TlsStage(k, st, S.TlsReplyOf(c, r)), PassHash(c, r);
      Delivered(w, Does(w, k, [DoTls(S.TlsReplyOf(c, r))] + ([DoHash(h)] + DeployActs(c, r, h))), k,
                if g.Halt? then S.Worked(c, g, sent)
                else var i := HashStage(g.st, h);
                  if i.Halt? then S.Worked(c, i, sent) else S.FromDeploy(c, r, i.st, h, sent))
  {
    var t, h := S.TlsReplyOf(c, r), PassHash(c, r);
    var b, rest, g := DoTls(t), [DoHash(h)] + DeployActs(c, r, h), TlsStage(k, st, t);
    LocalLands(w, k, c, CheckTls, st, (st: Status) => TlsStage(k, st, t), CheckHash);
    DoesCons(w, k, b, rest);
    var v := ChildStep(w, k, b);
    if g.Halt? {
      EndedStays(v, k, rest);
    } else {
      SameSts(w, v, k);
      HashDoes(v, k, c, r, g.st, h, sent);
    }
  }

  lemma ConfigDoes(w: World, k: Kind, c: S.Sub, r: S.Replies, st: Status, sent: S.Sent)
    requires Stands(w, k, c, Configure, st) && DeployTrue(w, k, r) && PublishTrue(w, k, r)
    requires S.InputsRead(c, r) && sent.work == None
    ensures Delivered(w, Does(w, k, ConfigActs(c, r)), k, S.FromConfig(c, r, st, sent))
  {
    var f, h := ConfigStage(st, r.config), PassHash(c, r);
    var a, rest := DoConfigure(r.config), [DoTls(S.TlsReplyOf(c, r))] + ([DoHash(h)] + DeployActs(c, r, h));
    LocalLands(w, k, c, Configure, st, (st: Status) => ConfigStage(st, r.config), CheckTls);
    assert ConfigActs(c, r) == [a] + rest;
    DoesCons(w, k, a, rest);
    var v := ChildStep(w, k, a);
    if f.Halt? {
      EndedStays(v, k, rest);
    } else {
      SameSts(w, v, k);
      TlsDoes(v, k, c, r, f.st, sent);
    }
  }

  /** The update of Memcached is pending with the stored object as the copy that was read. */
  predicate Holding(w: World, k: Kind, c: S.Sub, st: Status) {
    && Stands(w, k, c, MemUpdate, st) && Memcached in w.obj
    && w.pass[k].copy == Some(w.obj[Memcached]) && Own(k) !in w.obj[Memcached].fins
  }

  lemma MemReadLands(w: World, k: Kind, c: S.Sub, r: S.Replies, st: Status)
    requires Stands(w, k, c, MemRead, st) && MemTrue(w, k, r)
    ensures var v, f := ChildStep(w, k, DoMemRead(AnswerOf(w, r), r.mem.MemReady?)), MemStage(st, r.mem);
      && v.sts == w.sts && v.obj == w.obj
      && Lands(v, k, c, f, if r.memOwn then Configure else MemUpdate)
      && (f.Go? && !r.memOwn ==> Holding(v, k, c, f.st))
  {
    var read := AnswerOf(w, r);
    assert Memcached in Held(w, k) <==> Memcached in w.obj && Own(k) in w.obj[Memcached].fins;
    assert Readable(w, Memcached, read);
  }

  lemma MemUpdateLands(w: World, k: Kind, c: S.Sub, st: Status, ok: bool)
    requires Holding(w, k, c, st) && (ok ==> !w.obj[Memcached].deleting)
    ensures var v := ChildStep(w, k, DoMemUpdate(Write(ok, ok)));
      && v.sts == w.sts && (KeystoneEndpoint in v.obj <==> KeystoneEndpoint in w.obj)
      && (KeystoneEndpoint in w.obj ==> v.obj[KeystoneEndpoint] == w.obj[KeystoneEndpoint])
      && Lands(v, k, c, MemUpdateStage(st, ok), Configure)
      && (ok ==> Memcached in v.obj && v.obj[Memcached].fins == w.obj[Memcached].fins + {Own(k)})
      && (!ok ==> v.obj == w.obj)
  {}

  lemma Carries(w: World, v: World, k: Kind, r: S.Replies)
    requires DeployTrue(w, k, r) && PublishTrue(w, k, r) && v.sts == w.sts
    requires KeystoneEndpoint in v.obj <==> KeystoneEndpoint in w.obj
    requires KeystoneEndpoint in w.obj ==> v.obj[KeystoneEndpoint] == w.obj[KeystoneEndpoint]
    ensures DeployTrue(v, k, r) && PublishTrue(v, k, r)
  {}

  lemma SkipsUpdate(w: World, k: Kind, c: S.Sub, st: Status, wr: Write)
    requires Stands(w, k, c, Configure, st)
    ensures ChildStep(w, k, DoMemUpdate(wr)) == w
  {}

  lemma UpdateDoes(w: World, k: Kind, c: S.Sub, r: S.Replies, st: Status)
    requires if r.memOwn then Stands(w, k, c, Configure, st)
             else Holding(w, k, c, st) && (r.memUpdateOk ==> !w.obj[Memcached].deleting)
    requires DeployTrue(w, k, r) && PublishTrue(w, k, r) && S.InputsRead(c, r)
    ensures var sent, g := S.NOTHING.(mem := !r.memOwn), MemUpdateStage(st, r.memOwn || r.memUpdateOk);
      Delivered(w, Does(w, k, [DoMemUpdate(Write(r.memUpdateOk, r.memUpdateOk))] + ConfigActs(c, r)), k,
                if g.Halt? then S.Worked(c, g, sent) else S.FromConfig(c, r, st, sent))
  {
    var a := DoMemUpdate(Write(r.memUpdateOk, r.memUpdateOk));
    var sent, v := S.NOTHING.(mem := !r.memOwn), ChildStep(w, k, a);
    DoesCons(w, k, a, ConfigActs(c, r));
    if r.memOwn {
      SkipsUpdate(w, k, c, st, a.wr);
      ConfigDoes(w, k, c, r, st, sent);
    } else {
      MemUpdateLands(w, k, c, st, r.memUpdateOk);
      Carries(w, v, k, r);
      if r.memUpdateOk {
        ConfigDoes(v, k, c, r, st, sent);
      } else {
        EndedStays(v, k, ConfigActs(c, r));
      }
    }
  }

  lemma MemDoes(w: World, k: Kind, c: S.Sub, r: S.Replies, st: Status)
    requires Stands(w, k, c, MemRead, st) && MemTrue(w, k, r) && DeployTrue(w, k, r) && PublishTrue(w, k, r)
    requires S.InputsRead(c, r)
    ensures Delivered(w, Does(w, k, MemActs(w, c, r)), k, S.FromMemcached(c, r, st))
  {
    var a, f := DoMemRead(AnswerOf(w, r), r.mem.MemReady?), MemStage(st, r.mem);
    var v, rest := ChildStep(w, k, a), [DoMemUpdate(Write(r.memUpdateOk, r.memUpdateOk))] + ConfigActs(c, r);
    MemReadLands(w, k, c, r, st);
    assert MemActs(w, c, r) == [a] + rest;
    DoesCons(w, k, a, rest);
    if f.Halt? {
      EndedStays(v, k, rest);
    } else {
      Carries(w, v, k, r);
      UpdateDoes(v, k, c, r, f.st);
    }
  }

  /** A working pass that runs undisturbed in the cluster ends with the status that the sequential
      pass computes, and has patched its StatefulSet exactly when that one says so, and as it says. */
  lemma PassRefines(w: World, k: Kind, c: S.Sub, r: S.Replies)
    requires Stands(w, k, c, Inputs, Begin(k, c.gen, c.st)) && S.Fits(c, r)
    requires GateOf(c.own, c.deleting, c.st.conds == map[]) == Work
    requires MemTrue(w, k, r) && DeployTrue(w, k, r) && PublishTrue(w, k, r)
    ensures Delivered(w, Does(w, k, Acts(w, c, r)), k, S.Body(c, r, REQUEUE))
  {
    var st, main, prom := Begin(k, c.gen, c.st), S.MainRead(c, r), S.PromRead(r);
    var a, f := DoInputs(main, prom), InputStage(k, st, main, prom, REQUEUE);
    var v := ChildStep(w, k, a);
    LocalLands(w, k, c, Inputs, st, (st: Status) => InputStage(k, st, main, prom, REQUEUE), MemRead);
    DoesCons(w, k, a, MemActs(w, c, r));
    if f.Halt? {
      EndedStays(v, k, MemActs(w, c, r));
    } else {
      Carries(w, v, k, r);
      assert MemActs(w, c, r) == MemActs(v, c, r);
      MemDoes(v, k, c, r, f.st);
    }
  }
}
