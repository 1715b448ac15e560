/** What every interleaving keeps. The invariant speaks about one kind at a time: its stored CR,
    its running pass and the set of shared objects that carry its finalizer. */
module Invariants {
  import opened Base
  import opened Conditions
  import opened Resources
  import opened Stages
  import opened World

  /** The shared objects a kind may put its finalizer on. */
  function Uses(k: Kind): set<Shared> {
    match k
    case Watcher => {Prometheus, KeystoneService}
    case Api => {Memcached, KeystoneEndpoint}
    case _ => {Memcached}
  }

  /** What a True condition promises about finalizers: a child reports Memcached, the API its
      Keystone endpoint, the Watcher its inputs and its service config only while the objects
      behind them carry the kind's finalizer. */
  predicate Protected(k: Kind, c: Table, held: set<Shared>) {
    match k
    case Watcher =>
      && (Is(c, InputReady) ==> Prometheus in held)
      && (Is(c, ServiceConfigReady) ==> KeystoneService in held)
    case Api =>
      && (Is(c, MemcachedReady) ==> Memcached in held)
      && (Is(c, KeystoneEndpointReady) ==> KeystoneEndpoint in held)
    case _ => Is(c, MemcachedReady) ==> Memcached in held
  }

  /** How much of the invariant is claimed. Core says nothing about finalizers, Fins adds that none is
      left behind, Shield that what is reported as ready is protected. Each rests on the schedule a
      little more than the one before. */
  datatype Care = Core | Fins | Shield

  predicate Shielded(care: Care, k: Kind, c: Table, held: set<Shared>) {
    care == Shield ==> Protected(k, c, held)
  }

  // Evidence

  /** Everything of a child's spec that its StatefulSet takes over. */
  predicate Carries(work: Workload, s: SubSpec) {
    && work.replicas == s.replicas && work.image == s.image && work.resources == s.resources
    && work.serviceAccount == s.serviceAccount && work.nodeSelector == s.nodeSelector && work.tls == s.tls
  }

  /** The StatefulSet was patched with exactly the spec that was read, observed at its generation
      and had all its replicas ready. */
  predicate Sound(e: Evidence) {
    && Carries(e.sts.work, e.read)
    && e.sts.observed == e.sts.gen
    && e.sts.ready == e.read.replicas
  }

  /** The parent saw sound evidence from this child for the spec it derives for it. */
  predicate Saw1(child: Kind, t: Trace) {
    t.TopTrace? && child in t.seen && Sound(t.seen[child]) && t.seen[child].read == Derive(child, t.spec)
  }

  /** Every True condition that claims readiness is backed by evidence. */
  predicate Proven(k: Kind, st: Status, t: Trace) {
    match k
    case Watcher =>
      && (Is(st.conds, APIReady) ==> Saw1(Api, t))
      && (Is(st.conds, EngineReady) ==> Saw1(Engine, t))
      && (Is(st.conds, ApplierReady) ==> Saw1(Applier, t))
    case _ =>
      Is(st.conds, DeploymentReady) ==> t.SubTrace? && Sound(t.e)
  }

  /** The trace belongs to generation gen of the CR. */
  predicate Dated(t: Trace, gen: nat) {
    match t
    case NoTrace => true
    case SubTrace(e) => e.gen == gen
    case TopTrace(g, _, _) => g == gen
  }

  /** The trace is not ahead of the CR, and at its generation it quotes its spec. */
  predicate Matches(t: Trace, gen: nat, spec: Spec) {
    match t
    case NoTrace => true
    case SubTrace(e) => e.gen <= gen && (e.gen == gen ==> spec == Child(e.read))
    case TopTrace(g, s, _) => g <= gen && (g == gen ==> spec == Parent(s))
  }

  // Tables

  /** The conditions that later reasoning looks for are in the table. */
  predicate Full(k: Kind, c: Table) {
    match k
    case Watcher => InputReady in c && APIReady in c && EngineReady in c && ApplierReady in c
    case _ => InputReady in c && DeploymentReady in c
  }

  /** No condition is True except those the rbac helper may have set. */
  predicate Quiet(k: Kind, c: Table) {
    && Full(k, c) && Upto(k, c, 0) && !Is(c, Ready)
    && !Is(c, APIReady) && !Is(c, EngineReady) && !Is(c, ApplierReady)
  }

  predicate Honest(k: Kind, c: Table) {
    && Full(k, c) && Chain(k, c)
    && (Is(c, Ready) ==> AllSubTrue(c))
  }

  // One kind

  /** Which working stages a kind goes through. */
  predicate Fits(k: Kind, g: Stage) {
    if g.Expose? || g.Publish? then k == Api
    else if g.Ensure? then k == Watcher && g.child != Watcher
    else if g.Databases? || g.TopInputs? || g.PromUpdate? || g.SubSecret? || g.Keystone? || g.TopConfig?
         || g.DbSync? || g.Cron? || g.ExposeRoutes? || g.TopFinish? then k == Watcher
    else k != Watcher
  }

  /** How many pipeline conditions are True when a working pass stands at g. */
  function Level(k: Kind, g: Stage): int {
    match g
    case Inputs => 0
    case MemRead => 1
    case MemUpdate => 2
    case Configure => 2
    case CheckTls => 2
    case CheckHash => if k == Api then 3 else 2
    case Deploy => if k == Api then 4 else 3
    case Expose => 5
    case Publish => 6
    case Finish => 4
    case Databases => 0
    case TopInputs => 2
    case PromUpdate => 2
    case SubSecret => 2
    case Keystone => 3
    case TopConfig => 3
    case DbSync => 4
    case Cron => 5
    case Ensure(child) => if child == Api then 6 else 7
    case ExposeRoutes => 6
    case TopFinish => 7
  }

  predicate StatusOk(care: Care, k: Kind, c: CR, held: set<Shared>) {
    && SpecFits(k, c.spec)
    && (c.status.conds == map[] || Honest(k, c.status.conds))
    && Proven(k, c.status, c.trace)
    && Dated(c.trace, c.status.observed)
    && Matches(c.trace, c.gen, c.spec)
    && (!c.deleting ==> Shielded(care, k, c.status.conds, held))
  }

  /** A shared object carries the kind's finalizer only while the CR is stored and registered. */
  predicate StoredOk(care: Care, k: Kind, c: Option<CR>, held: set<Shared>) {
    match c
    case None => care != Core ==> held == {}
    case Some(d) =>
      (care != Core ==> held <= Uses(k) && (held != {} ==> d.own)) && StatusOk(care, k, d, held)
  }

  /** While a pass works, the CR it read is still there, registered, with the status it read. */
  predicate Anchored(k: Kind, p: Pass, c: Option<CR>) {
    && c.Some? && c.value.own
    && p.snap.gen <= c.value.gen
    && (p.snap.gen == c.value.gen ==> p.snap.spec == c.value.spec)
    && SpecFits(k, p.snap.spec)
    && p.st.observed == p.snap.gen
    && Matches(p.trace, p.snap.gen, p.snap.spec) && Dated(p.trace, p.snap.gen)
    && Proven(k, p.st, p.trace)
  }

  predicate WorkOk(care: Care, k: Kind, p: Pass, c: Option<CR>, held: set<Shared>, g: Stage) {
    && Fits(k, g)
    && Anchored(k, p, c)
    && c.value.status == p.snap.status
    && (k != Watcher ==> p.st.hash == p.snap.status.hash)
    && Full(k, p.st.conds) && !Is(p.st.conds, Ready)
    && (if k == Api && g == Finish then Chain(k, p.st.conds) else Upto(k, p.st.conds, Level(k, g)))
    && (g != MemUpdate ==> Shielded(care, k, p.st.conds, held))
    && (care == Shield && g == SubSecret ==> Prometheus in held)
    && (care == Shield && g == TopConfig ==> KeystoneService in held)
  }

  /** What may still be held while the delete pass stands at pc. */
  function Left(s: Shared): set<Shared> {
    match s
    case Memcached => {Memcached}
    case Prometheus => {Prometheus}
    case KeystoneService => {KeystoneService, Prometheus}
    case KeystoneEndpoint => {KeystoneEndpoint, Memcached}
  }

  predicate DeleteOk(k: Kind, p: Pass, c: Option<CR>) {
    && Quiet(k, p.st.conds) && p.trace == NoTrace
    && (c.Some? && c.value.own ==> c.value.deleting)
  }

  /** A pass on its way out: the deferred write still has to put its status and, after a gate or a
      delete, its finalizer change. */
  predicate ClosingOk(care: Care, k: Kind, p: Pass, c: Option<CR>, held: set<Shared>, meta: Meta, origin: Origin) {
    match origin
    case FromWork =>
      meta == Keep && Anchored(k, p, c) && Honest(k, p.st.conds) && Shielded(care, k, p.st.conds, held)
    case FromGate =>
      meta != DropOwn && Quiet(k, p.st.conds) && p.trace == NoTrace
    case FromDelete =>
      meta != AddOwn && DeleteOk(k, p, c) && (care != Core && meta == DropOwn ==> held == {})
  }

  /** While the delete pass stands at an object, only it and the ones after it may be held. */
  predicate PassOk(care: Care, k: Kind, p: Pass, c: Option<CR>, held: set<Shared>) {
    match p.pc
    case Working(g) => WorkOk(care, k, p, c, held, g)
    case DropDb => k == Watcher && DeleteOk(k, p, c)
    case Release(s) => s in Uses(k) && (care != Core ==> held <= Left(s)) && DeleteOk(k, p, c)
    case ReleaseUpdate(s) => s in Uses(k) && (care != Core ==> held <= Left(s)) && DeleteOk(k, p, c)
    case Closing(meta, origin, _) => ClosingOk(care, k, p, c, held, meta, origin)
  }

  predicate KindInv(care: Care, k: Kind, c: Option<CR>, p: Option<Pass>, held: set<Shared>) {
    match p
    case None => StoredOk(care, k, c, held)
    case Some(q) => StoredOk(care, k, c, held) && PassOk(care, k, q, c, held)
  }

  // Reads that mislead

  /** What was read tells kind k nothing of its finalizer on s. A failed read counts where the delete
      path overlooks it. */
  predicate Misses(k: Kind, s: Shared, r: Read) {
    match r
    case Found(c) => Own(k) !in c.fins
    case Absent => true
    case ReadFailed => s == Prometheus
  }

  /** A delete pass reads an object that carries its kind's finalizer, and does not learn of it. */
  predicate Leaks(w: World, l: Label) {
    && l.ReleaseReads? && l.k in w.pass && w.pass[l.k].pc == Release(l.s) && Readable(w, l.s, l.r)
    && l.s in Held(w, l.k) && Misses(l.k, l.s, l.r)
  }

  predicate PhantomMem(w: World, k: Kind, r: Read, ready: bool) {
    && At(w, k, MemRead) && Readable(w, Memcached, r)
    && r.Found? && ready && Own(k) in r.copy.fins && Memcached !in Held(w, k)
  }

  predicate PhantomProm(w: World, main: SecretRead, url: SecretRead, prom: SecretRead, copy: Obj) {
    && At(w, Watcher, TopInputs) && Readable(w, Prometheus, Found(copy))
    && main.Got? && url.Got? && prom.Got? && Own(Watcher) in copy.fins && Prometheus !in Held(w, Watcher)
  }

  /** A working pass goes on because an old copy still shows its kind's finalizer, which is gone. */
  predicate Phantom(w: World, l: Label) {
    || (l.ChildDoes? && l.a.DoMemRead? && PhantomMem(w, l.k, l.a.r, l.a.ready))
    || (l.WatcherDoes? && l.t.DoTopInputs? && PhantomProm(w, l.t.main, l.t.url, l.t.prom, l.t.copy))
  }

  /** The steps under which the invariant, taken with this much care, is kept. */
  predicate Allowed(care: Care, w: World, l: Label) {
    && (care != Core ==> !Leaks(w, l))
    && (care == Shield ==> !Phantom(w, l))
  }

  // The whole cluster

  predicate CopyOk(w: World, s: Shared, copy: Obj) {
    copy.rv <= w.rev && (s in w.obj && w.obj[s].rv == copy.rv ==> copy == w.obj[s])
  }

  /** A pass about to send an object back still holds the version it read. */
  predicate CopiesOk(w: World, p: Pass) {
    match p.pc
    case Working(g) =>
      && (g == MemUpdate && p.copy.Some? ==> CopyOk(w, Memcached, p.copy.value))
      && (g == PromUpdate && p.copy.Some? ==> CopyOk(w, Prometheus, p.copy.value))
    case DropDb => true
    case Release(_) => true
    case ReleaseUpdate(s) => p.copy.Some? ==> CopyOk(w, s, p.copy.value)
    case Closing(_, _, _) => true
  }

  type KindPred = (Kind, Option<CR>, Option<Pass>, set<Shared>) -> bool

  /** Every kind is in a good state, versions are bounded, and copies to be sent back are real. */
  ghost predicate InvBy(w: World, good: KindPred) {
    && (forall k {:trigger good(k, Look(w.cr, k), Look(w.pass, k), Held(w, k))} ::
          good(k, Look(w.cr, k), Look(w.pass, k), Held(w, k)))
    && (forall s :: s in w.obj ==> w.obj[s].rv <= w.rev)
    && (forall k :: k in w.pass ==> CopiesOk(w, w.pass[k]))
  }

  function Judge(care: Care): KindPred {
    (k, c, p, held) => KindInv(care, k, c, p, held)
  }

  ghost predicate Inv(care: Care, w: World) {
    InvBy(w, Judge(care))
  }
}
