/** What one pass of a child controller achieves, for all replies. */
module SubTheorems {
  import opened Base
  import opened Conditions
  import opened Resources
  import opened Stages
  import opened Secrets
  import opened Endpoints
  import opened SubPass

  function Published(c: Sub, r: Replies): ObjectReply {
    r.publish(Urls(c.spec, r.ports, r.rule))
  }

  function InputHash(c: Sub, r: Replies): Digest
    requires InputsRead(c, r) && (c.kind == Api ==> TlsReplyOf(c, r) == TlsOk)
  {
    OfEnv(ConfigVars(c, r))
  }

  function DeployReply(c: Sub, r: Replies): StsReply
    requires InputsRead(c, r) && (c.kind == Api ==> TlsReplyOf(c, r) == TlsOk)
  {
    r.deploy(WorkloadOf(c.spec, PodCa(c, r), InputHash(c, r)))
  }

  predicate Deployed(c: Sub, d: StsReply) {
    d.StsIs? && StsDone(d.obj, c.spec.replicas)
  }

  /** From the input hash on, every reply is the good one, and the hash is on record. A requeue asked
      for together with a True endpoint keeps Ready True only when the mirror leaves the Ready entry
      out. */
  predicate HashGood(c: Sub, r: Replies, skipReady: bool)
    requires InputsRead(c, r) && (c.kind == Api ==> TlsReplyOf(c, r) == TlsOk)
  {
    && c.st.hash == Some(InputHash(c, r))
    && Deployed(c, DeployReply(c, r))
    && (c.kind == Api ==>
          && ExposeAll(c.spec, r.order, r.ports, r.rule) == ServicesOk
          && Published(c, r).ObjectIs? && Published(c, r).mirrored == Some(True)
          && (Published(c, r).requeue == 0 || skipReady))
  }

  predicate DeliveryGood(c: Sub, r: Replies, skipReady: bool)
    requires InputsRead(c, r)
  {
    r.config.ConfigOk? && (c.kind == Api ==> TlsReplyOf(c, r) == TlsOk) && HashGood(c, r, skipReady)
  }

  predicate MemGood(r: Replies) {
    r.mem.MemReady? && (r.memOwn || r.memUpdateOk)
  }

  predicate Working(c: Sub) {
    GateOf(c.own, c.deleting, c.st.conds == map[]) == Work
  }

  predicate Good(c: Sub, r: Replies, skipReady: bool) {
    Working(c) && InputsRead(c, r) && MemGood(r) && DeliveryGood(c, r, skipReady)
  }

  /** A pass that has not decided Ready reports True only if everything else is True and the mirror
      leaves Ready out. */
  lemma Undecided(st: Status, skipReady: bool)
    requires Get(st.conds, Ready) == Unknown && Ready in st.conds && InputReady in st.conds
    ensures Is(Deferred(st, skipReady).conds, Ready) <==> AllSubTrue(st.conds) && skipReady
  {
    MirrorTrue(st.conds, skipReady);
    assert InputReady in Seen(st.conds, skipReady);
    assert !skipReady ==> Ready in Seen(st.conds, skipReady);
  }

  function Len(k: Kind): nat {
    if k == Api then 7 else 4
  }

  function Nth(k: Kind, n: nat): Type
    requires n < Len(k)
  {
    if k == Api then [InputReady, MemcachedReady, TLSInputReady, ServiceConfigReady, DeploymentReady,
                      CreateServiceReady, KeystoneEndpointReady][n]
    else [InputReady, MemcachedReady, ServiceConfigReady, DeploymentReady][n]
  }

  /** A child's pipeline is its table without Ready, in order. */
  lemma Pipeline(k: Kind)
    requires k != Watcher
    ensures forall t | t != Ready && Listed(k, t) :: 0 <= Rank(k, t) < Len(k) && Nth(k, Rank(k, t)) == t
    ensures forall n | 0 <= n < Len(k) :: Rank(k, Nth(k, n)) == n && Listed(k, Nth(k, n)) && Nth(k, n) != Ready
  {}

  /** A pass standing after n pipeline conditions: exactly the first n are True and Ready is
      undecided. */
  ghost predicate Standing(k: Kind, st: Status, n: int) {
    match k
    case Watcher => false
    case _ =>
      && (forall t :: t in st.conds <==> Listed(k, t))
      && st.conds[Ready] == Unknown
      && forall t | t in st.conds && t != Ready :: st.conds[t] == True <==> Rank(k, t) < n
  }

  /** Setting the next pipeline condition True moves on; setting it otherwise does not. */
  lemma Sets(k: Kind, st: Status, n: nat, s: State)
    requires n < Len(k) && Standing(k, st, n)
    ensures Standing(k, Put(st, Nth(k, n), s), if s == True then n + 1 else n)
  {
    Pipeline(k);
  }

  lemma SetsLater(k: Kind, st: Status, n: nat, m: nat, s: State)
    requires n <= m < Len(k) && Standing(k, st, n) && s != True
    ensures Standing(k, Put(st, Nth(k, m), s), n)
  {
    Pipeline(k);
  }

  lemma AllSub(k: Kind, st: Status, n: nat)
    requires Standing(k, st, n) && n <= Len(k)
    ensures AllSubTrue(st.conds) <==> n == Len(k)
  {
    Pipeline(k);
    if n < Len(k) {
      assert Nth(k, n) in st.conds;
    }
  }

  lemma HaltedReady(k: Kind, st: Status, n: nat, skipReady: bool)
    requires Standing(k, st, n) && n <= Len(k)
    ensures Is(Deferred(st, skipReady).conds, Ready) <==> n == Len(k) && skipReady
    ensures AllSubTrue(Deferred(st, skipReady).conds) <==> n == Len(k)
  {
    AllSub(k, st, n);
    assert Listed(k, InputReady);
    Undecided(st, skipReady);
    DeferredSubs(st, skipReady);
  }

  lemma DeferredSubs(st: Status, skipReady: bool)
    ensures AllSubTrue(Deferred(st, skipReady).conds) <==> AllSubTrue(st.conds)
  {
    var c, d := st.conds, Deferred(st, skipReady).conds;
    assert forall t | t != Ready :: t in c <==> t in d;
    assert forall t | t != Ready && t in c :: c[t] == d[t];
  }

  /** What is persisted says Ready exactly when it says True of everything else, unless the pass asks
      for a requeue and the mirror counts the undecided Ready entry. */
  ghost predicate Tells(o: Outcome, skipReady: bool) {
    var c := Deferred(o.st, skipReady).conds;
    Is(c, Ready) <==> AllSubTrue(c) && (o.exit.requeueAfter == 0 || skipReady)
  }

  lemma FinishedReady(k: Kind, st: Status, skipReady: bool)
    requires Standing(k, st, Len(k))
    ensures Is(Deferred(FinalStage(st).st, skipReady).conds, Ready)
    ensures AllSubTrue(Deferred(FinalStage(st).st, skipReady).conds)
  {
    AllSub(k, st, Len(k));
  }

  // Stage by stage: a stage that goes on adds its condition, one that halts adds none

  lemma InputStands(k: Kind, st: Status, main: SecretRead, prom: SecretRead, timeout: Delay)
    requires Standing(k, st, 0)
    ensures var f := InputStage(k, st, main, prom, timeout);
      Standing(k, f.st, if f.Go? then 1 else 0) && f.st.hash == st.hash
  {
    Sets(k, st, 0, InputStage(k, st, main, prom, timeout).st.conds[InputReady]);
  }

  lemma MemStands(k: Kind, st: Status, m: MemReply)
    requires Standing(k, st, 1)
    ensures var f := MemStage(st, m); Standing(k, f.st, if f.Go? then 2 else 1) && f.st.hash == st.hash
  {
    Sets(k, st, 1, MemStage(st, m).st.conds[MemcachedReady]);
  }

  lemma MemRefused(k: Kind, st: Status)
    requires Standing(k, st, 1)
    ensures Standing(k, Put(Put(st, MemcachedReady, True), MemcachedReady, False(Warning)), 1)
  {
    Sets(k, st, 1, False(Warning));
    assert Put(Put(st, MemcachedReady, True), MemcachedReady, False(Warning)) == Put(st, MemcachedReady, False(Warning));
  }

  /** Where the service config condition stands in the pipeline. */
  function ConfigAt(k: Kind): nat {
    if k == Api then 3 else 2
  }

  lemma ConfigStands(k: Kind, st: Status, r: ConfigReply)
    requires Standing(k, st, 2)
    ensures Standing(k, ConfigStage(st, r).st, 2) && ConfigStage(st, r).st.hash == st.hash
  {
    SetsLater(k, st, 2, ConfigAt(k), False(Warning));
  }

  lemma TlsStands(k: Kind, st: Status, t: TlsReply)
    requires Standing(k, st, 2)
    ensures var f := TlsStage(k, st, t);
      Standing(k, f.st, if f.Go? then ConfigAt(k) else 2) && f.st.hash == st.hash
  {
    if k == Api {
      Sets(k, st, 2, TlsStage(k, st, t).st.conds[TLSInputReady]);
    }
  }

  lemma HashStands(k: Kind, st: Status, h: Digest)
    requires Standing(k, st, ConfigAt(k))
    ensures var f := HashStage(st, h);
      Standing(k, f.st, if f.Go? then ConfigAt(k) + 1 else ConfigAt(k)) && (f.Go? <==> st.hash == Some(h))
  {
    Sets(k, st, ConfigAt(k), True);
  }

  lemma DeployStands(k: Kind, st: Status, replicas: nat, d: StsReply)
    requires Standing(k, st, ConfigAt(k) + 1)
    ensures var f := DeployStage(k, st, replicas, d);
      && (f.Go? <==> d.StsIs? && StsDone(d.obj, replicas))
      && Standing(k, f.st, ConfigAt(k) + if f.Go? then 2 else 1)
  {
    var st1 := if d.StsIs? && d.obj.gen == d.obj.observed then st.(ready := d.obj.ready) else st;
    Sets(k, st1, ConfigAt(k) + 1, DeployStage(k, st, replicas, d).st.conds[DeploymentReady]);
  }

  lemma ExposeStands(st: Status, s: ServiceReply)
    requires Standing(Api, st, 5)
    ensures var f := ExposeStage(st, s);
      (f.Go? <==> s == ServicesOk) && Standing(Api, f.st, if f.Go? then 6 else 5)
  {
    Sets(Api, st, 5, True);
    Sets(Api, st, 5, False(Warning));
    Sets(Api, st, 5, False(Info));
  }

  // Ready

  lemma PublishReady(c: Sub, r: Replies, st: Status, sent: Sent, skipReady: bool)
    requires Standing(Api, st, 6)
    ensures var p := Published(c, r);
      Is(Deferred(FromPublish(c, r, st, sent).st, skipReady).conds, Ready) <==>
        p.ObjectIs? && p.mirrored == Some(True) && (p.requeue == 0 || skipReady)
    ensures Tells(FromPublish(c, r, st, sent), skipReady)
  {
    var p := Published(c, r);
    HaltedReady(Api, st, 6, skipReady);
    AllSub(Api, st, 6);
    if p.ObjectIs? && p.mirrored.Some? {
      var st1, n := Put(st, KeystoneEndpointReady, p.mirrored.value), if p.mirrored == Some(True) then 7 else 6;
      Sets(Api, st, 6, p.mirrored.value);
      HaltedReady(Api, st1, n, skipReady);
      AllSub(Api, st1, n);
    }
  }

  lemma DeployReady(c: Sub, r: Replies, st: Status, h: Digest, sent: Sent, skipReady: bool)
    requires Standing(c.kind, st, ConfigAt(c.kind) + 1)
    ensures var d, p := r.deploy(WorkloadOf(c.spec, PodCa(c, r), h)), Published(c, r);
      Is(Deferred(FromDeploy(c, r, st, h, sent).st, skipReady).conds, Ready) <==>
        && d.StsIs? && StsDone(d.obj, c.spec.replicas)
        && (c.kind == Api ==>
              && ExposeAll(c.spec, r.order, r.ports, r.rule) == ServicesOk
              && p.ObjectIs? && p.mirrored == Some(True) && (p.requeue == 0 || skipReady))
    ensures Tells(FromDeploy(c, r, st, h, sent), skipReady)
  {
    var work := WorkloadOf(c.spec, PodCa(c, r), h);
    var f := DeployStage(c.kind, st, c.spec.replicas, r.deploy(work));
    DeployStands(c.kind, st, c.spec.replicas, r.deploy(work));
    if f.Halt? {
      HaltedReady(c.kind, f.st, ConfigAt(c.kind) + 1, skipReady);
    } else if c.kind != Api {
      FinishedReady(c.kind, f.st, skipReady);
    } else {
      var g := ExposeStage(f.st, ExposeAll(c.spec, r.order, r.ports, r.rule));
      ExposeStands(f.st, ExposeAll(c.spec, r.order, r.ports, r.rule));
      if g.Halt? {
        HaltedReady(Api, g.st, 5, skipReady);
      } else {
        PublishReady(c, r, g.st, sent.(work := Some(work)), skipReady);
      }
    }
  }

  lemma HashReady(c: Sub, r: Replies, st: Status, sent: Sent, skipReady: bool)
    requires InputsRead(c, r) && (c.kind == Api ==> TlsReplyOf(c, r) == TlsOk)
    requires Standing(c.kind, st, ConfigAt(c.kind)) && st.hash == c.st.hash
    ensures var h := InputHash(c, r);
      var i := HashStage(st, h);
      var o := if i.Halt? then Worked(c, i, sent) else FromDeploy(c, r, i.st, h, sent);
      (Is(Deferred(o.st, skipReady).conds, Ready) <==> HashGood(c, r, skipReady)) && Tells(o, skipReady)
  {
    var h := InputHash(c, r);
    var i := HashStage(st, h);
    HashStands(c.kind, st, h);
    if i.Halt? {
      HaltedReady(c.kind, i.st, ConfigAt(c.kind), skipReady);
    } else {
      DeployReady(c, r, i.st, h, sent, skipReady);
    }
  }

  lemma ConfigReady(c: Sub, r: Replies, st: Status, sent: Sent, skipReady: bool)
    requires InputsRead(c, r) && Standing(c.kind, st, 2) && st.hash == c.st.hash
    ensures Is(Deferred(FromConfig(c, r, st, sent).st, skipReady).conds, Ready) <==> DeliveryGood(c, r, skipReady)
    ensures Tells(FromConfig(c, r, st, sent), skipReady)
  {
    var f := ConfigStage(st, r.config);
    ConfigStands(c.kind, st, r.config);
    HaltedReady(c.kind, f.st, 2, skipReady);
    if f.Go? {
      var g := TlsStage(c.kind, f.st, TlsReplyOf(c, r));
      TlsStands(c.kind, f.st, TlsReplyOf(c, r));
      if g.Halt? {
        HaltedReady(c.kind, g.st, 2, skipReady);
      } else {
        HashReady(c, r, g.st, sent, skipReady);
      }
    }
  }

  lemma MemcachedReadyIff(c: Sub, r: Replies, st: Status, skipReady: bool)
    requires InputsRead(c, r) && Standing(c.kind, st, 1) && st.hash == c.st.hash
    ensures Is(Deferred(FromMemcached(c, r, st).st, skipReady).conds, Ready) <==>
      MemGood(r) && DeliveryGood(c, r, skipReady)
    ensures Tells(FromMemcached(c, r, st), skipReady)
  {
    var f := MemStage(st, r.mem);
    MemStands(c.kind, st, r.mem);
    if f.Halt? {
      HaltedReady(c.kind, f.st, 1, skipReady);
    } else if !r.memOwn && !r.memUpdateOk {
      MemRefused(c.kind, st);
      HaltedReady(c.kind, MemUpdateStage(f.st, false).st, 1, skipReady);
    } else {
      ConfigReady(c, r, f.st, NOTHING.(mem := !r.memOwn), skipReady);
    }
  }

  /** A pass ends with Ready True exactly when every reply is the good one and the hash of its inputs
      was already on record; and exactly when all other conditions are True, unless it asks for a
      requeue and the mirror counts the undecided Ready entry. */
  lemma ReadyIff(c: Sub, r: Replies, timeout: Delay, skipReady: bool)
    requires Fits(c, r)
    ensures Is(Pass(c, r, timeout, skipReady).st.conds, Ready) <==> Good(c, r, skipReady)
    ensures Tells(Body(c, r, timeout), skipReady)
  {
    var st := Begin(c.kind, c.gen, c.st);
    BeginStands(c.kind, c.gen, c.st);
    HaltedReady(c.kind, st, 0, skipReady);
    if GateOf(c.own, c.deleting, c.st.conds == map[]) == Work {
      var f := InputStage(c.kind, st, MainRead(c, r), PromRead(r), timeout);
      InputStands(c.kind, st, MainRead(c, r), PromRead(r), timeout);
      if f.Halt? {
        HaltedReady(c.kind, f.st, 0, skipReady);
      } else {
        MemcachedReadyIff(c, r, f.st, skipReady);
      }
    }
  }

  /** The exception is real: an API pass all of whose replies are good, but for a requeue asked for
      together with a True endpoint, persists all other conditions as True; Ready with them if the
      mirror leaves the Ready entry out, and not otherwise. */
  lemma RequeueHidesReady(c: Sub, r: Replies, timeout: Delay)
    requires Fits(c, r) && c.kind == Api && Good(c, r, true) && Published(c, r).requeue > 0
    ensures AllSubTrue(Pass(c, r, timeout, false).st.conds) && !Is(Pass(c, r, timeout, false).st.conds, Ready)
    ensures Is(Pass(c, r, timeout, true).st.conds, Ready)
  {
    ReadyIff(c, r, timeout, false);
    ReadyIff(c, r, timeout, true);
    var st := Body(c, r, timeout).st;
    DeferredSubs(st, true);
    DeferredSubs(st, false);
  }

  const LONE_SPEC := SubSpec("secret", "user", "key", "memcached", "prometheus", false, None, "", "image", "",
                             "account", 0, Tls("", None, None), map[])

  /** Good replies for a password selector, with a requeue of n. */
  function Requeueing(selector: string, n: nat): Replies {
    Replies(SecretIs(map f | f in MainFields(selector) :: "value"), SecretIs(map f | f in PROM_FIELDS :: "value"),
            MemReady, true, true, ConfigOk, OfText(""), CertsAre(None), CertsAre(None),
            (work: Workload) => StsIs(Sts(1, 1, 0, work)),
            [Public, Internal], (e: Endpoint) => Patched, (svc, override, https) => Some("url"),
            (urls: map<Endpoint, string>) => ObjectIs(Some(True), n), NotThere, NotThere)
  }

  function Lone(hash: Option<Digest>): Sub {
    Sub("api", Api, 1, LONE_SPEC, false, true, Status(InitFor(Api), 1, hash, 0))
  }

  /** Such a pass exists. */
  lemma RequeueWitness(n: nat)
    requires n > 0
    ensures var r := Requeueing("key", n);
      && InputsRead(Lone(None), r) && TlsReplyOf(Lone(None), r) == TlsOk
      && var c := Lone(Some(InputHash(Lone(None), r)));
        Fits(c, r) && Good(c, r, true) && Published(c, r).requeue == n
  {
    var r := Requeueing("key", n);
    var c := Lone(Some(InputHash(Lone(None), r)));
    assert ConfigVars(c, r) == ConfigVars(Lone(None), r);
    assert Ready in InitFor(Api);
    assert [Public, Internal][1..] == [Internal] && [Internal][1..] == [];
    assert ExposeAll(c.spec, [Internal], r.ports, r.rule) == ServicesOk;
  }

  lemma BeginStands(k: Kind, gen: nat, st: Status)
    requires k != Watcher
    ensures Standing(k, Begin(k, gen, st), 0)
  {
    Pipeline(k);
  }

  // What a pass writes

  /** A pass that patches the StatefulSet does so with the hash of its inputs, and that hash was on
      record when the pass started; a pass that records a new hash patches nothing. */
  lemma DeploysOnlyRecorded(c: Sub, r: Replies, timeout: Delay, skipReady: bool)
    requires Fits(c, r)
    ensures var o := Pass(c, r, timeout, skipReady);
      && (o.sent.work.Some? ==>
            && Working(c) && InputsRead(c, r) && MemGood(r) && (c.kind == Api ==> TlsReplyOf(c, r) == TlsOk)
            && o.sent.work == Some(WorkloadOf(c.spec, PodCa(c, r), InputHash(c, r)))
            && c.st.hash == Some(InputHash(c, r)) && o.st.hash == c.st.hash)
      && (o.st.hash != c.st.hash ==> o.sent.work == None && o.sent.published == None)
  {
    if Working(c) {
      var f := InputStage(c.kind, Begin(c.kind, c.gen, c.st), MainRead(c, r), PromRead(r), timeout);
      if f.Go? {
        DeliveryWrites(c, r, MemStage(f.st, r.mem).st, NOTHING.(mem := !r.memOwn));
      }
    }
  }

  lemma DeployWrites(c: Sub, r: Replies, st: Status, h: Digest, sent: Sent)
    ensures var o := FromDeploy(c, r, st, h, sent);
      o.sent.work == Some(WorkloadOf(c.spec, PodCa(c, r), h)) && o.st.hash == st.hash
  {}

  lemma DeliveryWrites(c: Sub, r: Replies, st: Status, sent: Sent)
    requires c.kind != Watcher && InputsRead(c, r) && st.hash == c.st.hash && sent.work == None && sent.published == None
    ensures var o := FromConfig(c, r, st, sent);
      && (o.sent.work.Some? ==>
            && (c.kind == Api ==> TlsReplyOf(c, r) == TlsOk)
            && o.sent.work == Some(WorkloadOf(c.spec, PodCa(c, r), InputHash(c, r)))
            && c.st.hash == Some(InputHash(c, r)) && o.st.hash == c.st.hash)
      && (o.st.hash != c.st.hash ==> o.sent.work == None && o.sent.published == None)
  {
    var g := TlsStage(c.kind, ConfigStage(st, r.config).st, TlsReplyOf(c, r));
    if r.config.ConfigOk? && g.Go? && c.st.hash == Some(InputHash(c, r)) {
      DeployWrites(c, r, HashStage(g.st, InputHash(c, r)).st, InputHash(c, r), sent);
    }
  }

  // Passes that end without an error and without a requeue

  /** From the rendered configuration on. */
  predicate QuietDelivery(c: Sub, r: Replies)
    requires InputsRead(c, r)
  {
    r.config.ConfigOk? &&
    if c.kind == Api && TlsReplyOf(c, r) != TlsOk then TlsReplyOf(c, r) == TlsMissing
    else
      || c.st.hash != Some(InputHash(c, r))
      || (DeployReply(c, r).StsIs? && !Deployed(c, DeployReply(c, r)))
      || (c.kind != Api && (DeployReply(c, r).StsNotFound? || DeployReply(c, r).StsRequeue?))
      || (Deployed(c, DeployReply(c, r)) &&
          (c.kind == Api ==> QuietExposure(ExposeAll(c.spec, r.order, r.ports, r.rule), Published(c, r))))
  }

  predicate QuietExposure(s: ServiceReply, p: ObjectReply) {
    s == ServiceWait || (s == ServicesOk && p.ObjectIs? && p.requeue == 0)
  }

  lemma DeliveryExit(c: Sub, r: Replies, st: Status, sent: Sent)
    requires c.kind != Watcher && InputsRead(c, r) && st.hash == c.st.hash
    ensures Silent(FromConfig(c, r, st, sent).exit) <==> QuietDelivery(c, r)
  {}

  /** A pass ends silently, so that only an event can start the next one, exactly when it registers or
      initialises, gives up or completes a deletion, waits for a TLS secret, records a new hash, waits
      for its StatefulSet or a service, or is through. */
  lemma SilentIff(c: Sub, r: Replies, timeout: Delay, skipReady: bool)
    requires Fits(c, r)
    ensures Silent(Pass(c, r, timeout, skipReady).exit) <==>
      match GateOf(c.own, c.deleting, c.st.conds == map[])
      case RegisterFirst => true
      case OnlyInit => true
      case Delete =>
        && !(c.kind == Api && r.releaseEndpoint in {NotReadable, UpdateFailed})
        && (r.releaseMem == NotReadable || Released(c.kind, r))
      case Work => InputsRead(c, r) && MemGood(r) && QuietDelivery(c, r)
  {
    match GateOf(c.own, c.deleting, c.st.conds == map[])
    case RegisterFirst =>
    case OnlyInit =>
    case Delete => DeletionExit(c.kind, r);
    case Work =>
      var f := InputStage(c.kind, Begin(c.kind, c.gen, c.st), MainRead(c, r), PromRead(r), timeout);
      if f.Go? {
        DeliveryExit(c, r, MemStage(f.st, r.mem).st, NOTHING.(mem := !r.memOwn));
      }
  }

  lemma DeletionExit(k: Kind, r: Replies)
    ensures Silent(DeleteExit(k, r)) <==>
      !(k == Api && r.releaseEndpoint in {NotReadable, UpdateFailed}) && (r.releaseMem == NotReadable || Released(k, r))
  {
    match r.releaseMem {
      case NotThere => case NotOurs => case Updated => case NotReadable => case UpdateMissing => case UpdateFailed =>
    }
    match r.releaseEndpoint {
      case NotThere => case NotOurs => case Updated => case NotReadable => case UpdateMissing => case UpdateFailed =>
    }
  }
}
