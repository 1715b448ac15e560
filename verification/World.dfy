/** The cluster that the four controllers share, as a state machine. A schedule is any sequence of
    labels: atomic steps of the controllers' passes, crashes, and moves of the environment (users,
    the StatefulSet and Job controllers, other operators). A label that is not enabled changes
    nothing. At most one pass runs per custom resource. */
module World {
  import opened Base
  import opened Conditions
  import opened Resources
  import opened Stages

  // Objects

  /** The objects on which the operator's finalizers sit. */
  datatype Shared = Memcached | Prometheus | KeystoneService | KeystoneEndpoint

  datatype Finalizer = Own(kind: Kind) | Foreign(id: nat)

  datatype Obj = Obj(rv: nat, deleting: bool, fins: set<Finalizer>)

  /** What a child pass saw when it reported its deployment ready. */
  datatype Evidence = Evidence(gen: nat, read: SubSpec, sts: Sts)

  /** A history variable kept beside a status: where its True conditions came from. */
  datatype Trace =
    | NoTrace
    | SubTrace(e: Evidence)
    | TopTrace(gen: nat, spec: WatcherSpec, seen: map<Kind, Evidence>)

  /** own: the operator's finalizer is on the CR; held: somebody else's is. */
  datatype CR = CR(gen: nat, spec: Spec, deleting: bool, own: bool, held: bool,
                   status: Status, trace: Trace)

  datatype JobPhase = Running | Complete | Broken

  // Passes

  datatype Meta = Keep | AddOwn | DropOwn

  datatype Origin = FromGate | FromWork | FromDelete

  datatype Stage =
    | Inputs | MemRead | MemUpdate | Configure | CheckTls | CheckHash | Deploy | Expose
    | Publish | Finish
    | Databases | TopInputs | PromUpdate | SubSecret | Keystone | TopConfig | DbSync | Cron
    | Ensure(child: Kind) | ExposeRoutes | TopFinish

  datatype Pc =
    | Working(stage: Stage)
    | DropDb
    | Release(s: Shared)
    | ReleaseUpdate(s: Shared)
    | Closing(meta: Meta, origin: Origin, saved: bool)

  /** snap is the CR as read at the start, st the status being built, copy the last shared object
      read. */
  datatype Pass = Pass(pc: Pc, snap: CR, st: Status, copy: Option<Obj>, trace: Trace)

  datatype World = World(rev: nat, cr: map<Kind, CR>, obj: map<Shared, Obj>, sts: map<Kind, Sts>,
                         jobs: map<Digest, JobPhase>, pass: map<Kind, Pass>)

  const EMPTY := World(0, map[], map[], map[], map[], map[])

  const REQUEUE: nat := 5

  /** The shared objects that carry kind k's finalizer on this cluster. */
  function Held(w: World, k: Kind): set<Shared> {
    set s | s in w.obj && Own(k) in w.obj[s].fins
  }

  // Labels

  datatype Read = Found(copy: Obj) | Absent | ReadFailed

  /** applied: the write reached the store; ok: the caller learned that it did. */
  datatype Write = Write(applied: bool, ok: bool)

  datatype ChildAct =
    | DoInputs(main: SecretRead, prom: SecretRead)
    | DoMemRead(r: Read, ready: bool)
    | DoMemUpdate(wr: Write)
    | DoConfigure(c: ConfigReply)
    | DoTls(t: TlsReply)
    | DoHash(h: Digest)
    | DoDeploy(ca: Option<CaCert>, applied: bool, problem: Option<StsReply>)
    | DoExpose(service: ServiceReply)
    | DoPublish(wr: Write, others: set<nat>, mirrored: Option<State>, requeue: nat)
    | DoFinish

  datatype TopAct =
    | DoDatabases(d: DbReply, m: MqReply)
    | DoTopInputs(main: SecretRead, url: SecretRead, prom: SecretRead, copy: Obj)
    | DoPromUpdate(wr: Write)
    | DoSubSecret(ok: bool)
    | DoKeystone(wr: Write, others: set<nat>, mirrored: Option<State>)
    | DoTopConfig(ok: bool)
    | DoDbSync(after: Delay)
    | DoCron(ok: bool)
    | DoEnsure(child: Kind, wr: Write, skipReady: bool)
    | DoExposeRoutes(route: RouteReply)
    | DoTopFinish(ok: bool)
    | DoDropDb(ok: bool)

  datatype EnvAct =
    | CreateCR(k: Kind, spec: Spec)
    | EditSpec(k: Kind, spec: Spec)
    | RequestDelete(k: Kind)
    | Hold(k: Kind, on: bool)
    | StsObserve(k: Kind)
    | StsScale(k: Kind, ready: nat)
    | StsVanish(k: Kind)
    | ObjCreate(s: Shared, others: set<nat>)
    | ObjDelete(s: Shared)
    | ObjForeign(s: Shared, others: set<nat>)
    | JobEnds(h: Digest, good: bool)

  datatype Label =
    | Start(k: Kind, rbac: Rbac, rbacOk: bool)
    | Crash(k: Kind)
    | WriteMeta(k: Kind, applied: bool)
    | WriteStatus(k: Kind, applied: bool, skipReady: bool)
    | ChildDoes(k: Kind, a: ChildAct)
    | WatcherDoes(t: TopAct)
    | ReleaseReads(k: Kind, s: Shared, r: Read)
    | ReleaseWrites(k: Kind, s: Shared, wr: Write)
    | EnvDoes(e: EnvAct)

  // Store primitives

  function Foreigners(ids: set<nat>): set<Finalizer> {
    set i | i in ids :: Foreign(i)
  }

  function Owners(fins: set<Finalizer>): set<Finalizer> {
    set f | f in fins && f.Own?
  }

  /** Store an object's new finalizers; an object under deletion vanishes with its last one. */
  function SetFins(w: World, s: Shared, deleting: bool, fins: set<Finalizer>): World {
    if deleting && fins == {} then w.(rev := w.rev + 1, obj := w.obj - {s})
    else w.(rev := w.rev + 1, obj := w.obj[s := Obj(w.rev + 1, deleting, fins)])
  }

  /** Update is accepted only on the version that was read, and adds no finalizer to an object
      under deletion. */
  predicate Accepts(w: World, s: Shared, copy: Obj, fins: set<Finalizer>) {
    s in w.obj && w.obj[s].rv == copy.rv && (w.obj[s].deleting ==> fins <= w.obj[s].fins)
  }

  /** Reads go through a cache: a copy may be old, and miss the reader's own changes too; only a copy
      of the stored version is the stored object. */
  predicate Readable(w: World, s: Shared, r: Read) {
    r.Found? ==> r.copy.rv <= w.rev && (s in w.obj && w.obj[s].rv == r.copy.rv ==> r.copy == w.obj[s])
  }

  /** Create-or-patch of a Keystone object puts the kind's finalizer on it; a patch replaces the
      whole list. An object under deletion refuses a new finalizer. */
  function Register(w: World, k: Kind, s: Shared, others: set<nat>): Option<World> {
    if s !in w.obj then Some(SetFins(w, s, false, {Own(k)}))
    else if Own(k) in w.obj[s].fins then Some(w)
    else if w.obj[s].deleting then None
    else Some(SetFins(w, s, false, Foreigners(others) + Owners(w.obj[s].fins) + {Own(k)}))
  }

  function Look<K, V>(m: map<K, V>, k: K): Option<V> {
    if k in m then Some(m[k]) else None
  }

  function PutCR(w: World, k: Kind, c: Option<CR>): World {
    if c.Some? then w.(cr := w.cr[k := c.value]) else w.(cr := w.cr - {k})
  }

  /** A CR under deletion leaves the store with its last finalizer. */
  function Stored(c: CR): Option<CR> {
    if c.deleting && !c.own && !c.held then None else Some(c)
  }

  // Passes

  predicate At(w: World, k: Kind, stage: Stage) {
    k in w.pass && w.pass[k].pc == Working(stage)
  }

  function SetPass(w: World, k: Kind, p: Pass): World {
    w.(pass := w.pass[k := p])
  }

  /** Continue at next, or close the pass with the halted status. */
  function Follow(p: Pass, f: Flow, next: Stage): Pass {
    if f.Go? then p.(st := f.st, pc := Working(next))
    else p.(st := f.st, pc := Closing(Keep, FromWork, false))
  }

  /** A step that only consults the environment. */
  function Local(w: World, k: Kind, stage: Stage, f: Status -> Flow, next: Stage): World {
    if At(w, k, stage) then SetPass(w, k, Follow(w.pass[k], f(w.pass[k].st), next)) else w
  }

  function Opened(k: Kind, c: CR, rbac: Rbac, rbacOk: bool): Pass {
    var st0 := Begin(k, c.gen, c.status);
    var st := if k == Watcher then RbacStage(st0, rbac) else st0;
    var pc :=
      if k == Watcher && !rbacOk then Closing(Keep, FromGate, false)
      else match GateOf(c.own, c.deleting, c.status.conds == map[])
        case RegisterFirst => Closing(AddOwn, FromGate, false)
        case OnlyInit => Closing(Keep, FromGate, false)
        case Delete =>
          (match k
           case Watcher => DropDb
           case Api => Release(KeystoneEndpoint)
           case _ => Release(Memcached))
        case Work => Working(if k == Watcher then Databases else Inputs);
    Pass(pc, c, st, None, NoTrace)
  }

  function DoStart(w: World, k: Kind, rbac: Rbac, rbacOk: bool): World {
    if k in w.cr && k !in w.pass then SetPass(w, k, Opened(k, w.cr[k], rbac, rbacOk)) else w
  }

  /** Effect of the finalizer change on the CR: one under deletion gains no finalizer. */
  function MetaCR(c: CR, meta: Meta): Option<CR> {
    if meta == DropOwn then Stored(c.(own := false))
    else if meta == AddOwn && !c.deleting then Some(c.(own := true))
    else Some(c)
  }

  function Settled(p: Pass): Pass
    requires p.pc.Closing?
  {
    p.(pc := Closing(Keep, p.pc.origin, p.pc.saved))
  }

  /** The metadata half of the deferred write. */
  function DoWriteMeta(w: World, k: Kind, applied: bool): World {
    if k in w.pass && w.pass[k].pc.Closing? && w.pass[k].pc.meta != Keep then
      var w1 := SetPass(w, k, Settled(w.pass[k]));
      if applied && k in w.cr then PutCR(w1, k, MetaCR(w.cr[k], w.pass[k].pc.meta)) else w1
    else w
  }

  function SavedCR(c: CR, p: Pass, skipReady: bool): CR {
    c.(status := Deferred(p.st, skipReady), trace := p.trace)
  }

  function Saved(p: Pass): Pass
    requires p.pc.Closing?
  {
    p.(pc := Closing(p.pc.meta, p.pc.origin, true))
  }

  /** The status half of the deferred write. */
  function DoWriteStatus(w: World, k: Kind, applied: bool, skipReady: bool): World {
    if k in w.pass && w.pass[k].pc.Closing? && !w.pass[k].pc.saved then
      var w1 := SetPass(w, k, Saved(w.pass[k]));
      if applied && k in w.cr then PutCR(w1, k, Some(SavedCR(w.cr[k], w.pass[k], skipReady))) else w1
    else w
  }

  function MemReplyOf(r: Read, ready: bool): MemReply {
    match r
    case Found(_) => if ready then MemReady else MemNotReady
    case Absent => MemNotFound
    case ReadFailed => MemError
  }

  function ReadMemcached(w: World, k: Kind, r: Read, ready: bool): World {
    if At(w, k, MemRead) && Readable(w, Memcached, r) then
      var p := w.pass[k].(copy := if r.Found? then Some(r.copy) else None);
      var next := if r.Found? && Own(k) !in r.copy.fins then MemUpdate else Configure;
      SetPass(w, k, Follow(p, MemStage(p.st, MemReplyOf(r, ready)), next))
    else w
  }

  /** Add the kind's finalizer to the copy that was read and send the whole list back. */
  function AddOwnTo(w: World, k: Kind, s: Shared, wr: Write): (World, bool) {
    if k in w.pass && w.pass[k].copy.Some? then
      var copy := w.pass[k].copy.value;
      var fins := copy.fins + {Own(k)};
      if wr.applied && Accepts(w, s, copy, fins) then (SetFins(w, s, w.obj[s].deleting, fins), wr.ok)
      else (w, false)
    else (w, false)
  }

  function UpdateMemcached(w: World, k: Kind, wr: Write): World {
    if At(w, k, MemUpdate) then
      var (w1, ok) := AddOwnTo(w, k, Memcached, wr);
      SetPass(w1, k, Follow(w.pass[k], MemUpdateStage(w.pass[k].st, ok), Configure))
    else w
  }

  function Patched(w: World, k: Kind, work: Workload): Sts {
    Patch(Look(w.sts, k), work)
  }

  /** What the pass makes of the patched object o, or of the problem it got instead. Reporting the
      deployment ready records the evidence. */
  function Deployed(k: Kind, p: Pass, read: SubSpec, o: Sts, problem: Option<StsReply>): Pass {
    var f := DeployStage(k, p.st, read.replicas, if problem.Some? then problem.value else StsIs(o));
    var q := Follow(p, f, if k == Api then Expose else Finish);
    if f.Go? then q.(trace := SubTrace(Evidence(p.snap.gen, read, o))) else q
  }

  predicate MayDeploy(w: World, k: Kind, applied: bool, problem: Option<StsReply>) {
    && At(w, k, Deploy) && w.pass[k].st.hash.Some? && w.pass[k].snap.spec.Child?
    && (problem.None? ==> applied) && (problem.Some? ==> !problem.value.StsIs?)
  }

  function DeployPass(w: World, k: Kind, ca: Option<CaCert>, applied: bool,
                      problem: Option<StsReply>): World {
    if MayDeploy(w, k, applied, problem) then
      var p := w.pass[k];
      var read := p.snap.spec.s;
      var o := Patched(w, k, WorkloadOf(read, ca, p.st.hash.value));
      SetPass(if applied then w.(sts := w.sts[k := o]) else w, k, Deployed(k, p, read, o, problem))
    else w
  }

  function PublishPass(w: World, k: Kind, wr: Write, others: set<nat>, mirrored: Option<State>,
                       requeue: nat): World {
    if At(w, k, Publish) then
      var r := if wr.applied then Register(w, k, KeystoneEndpoint, others) else None;
      var w1 := if r.Some? then r.value else w;
      var reply := if r.Some? && wr.ok then ObjectIs(mirrored, requeue) else ObjectFailed;
      SetPass(w1, k, Follow(w.pass[k], EndpointStage(w.pass[k].st, reply), Finish))
    else w
  }

  /** The Prometheus secret read here is the copy that is updated next. */
  function TopInputsPass(w: World, main: SecretRead, url: SecretRead, prom: SecretRead, copy: Obj): World {
    if At(w, Watcher, TopInputs) && Readable(w, Prometheus, Found(copy)) then
      var p := w.pass[Watcher].(copy := Some(copy));
      var next := if Own(Watcher) in copy.fins then SubSecret else PromUpdate;
      SetPass(w, Watcher, Follow(p, TopInputStage(p.st, main, url, prom), next))
    else w
  }

  function UpdatePrometheus(w: World, wr: Write): World {
    if At(w, Watcher, PromUpdate) then
      var (w1, ok) := AddOwnTo(w, Watcher, Prometheus, wr);
      SetPass(w1, Watcher, Follow(w.pass[Watcher], PromUpdateStage(w.pass[Watcher].st, ok), SubSecret))
    else w
  }

  function KeystonePass(w: World, wr: Write, others: set<nat>, mirrored: Option<State>): World {
    if At(w, Watcher, Keystone) then
      var r := if wr.applied then Register(w, Watcher, KeystoneService, others) else None;
      var w1 := if r.Some? then r.value else w;
      var reply := if r.Some? && wr.ok then ObjectIs(mirrored, 0) else ObjectFailed;
      SetPass(w1, Watcher, Follow(w.pass[Watcher], KeystoneStage(w.pass[Watcher].st, reply), TopConfig))
    else w
  }

  /** The job runs once per hash: a recorded hash counts as done, otherwise the job is waited for. */
  function JobReplyOf(w: World, p: Pass, h: Digest, after: Delay): JobReply {
    if p.st.hash == Some(h) then JobDone
    else if h !in w.jobs || w.jobs[h].Running? then JobRunning(after)
    else if w.jobs[h].Broken? then JobFailed
    else JobDone
  }

  function DbSyncPass(w: World, after: Delay): World {
    if At(w, Watcher, DbSync) && w.pass[Watcher].snap.spec.Parent? then
      var p := w.pass[Watcher];
      var h := JobHash(p.snap.spec.w);
      var w1 := if p.st.hash != Some(h) && h !in w.jobs then w.(jobs := w.jobs[h := Running]) else w;
      SetPass(w1, Watcher, Follow(p, DbSyncStage(p.st, h, JobReplyOf(w, p, h, after)), Cron))
    else w
  }

  function HeldBy(c: CR, on: bool): CR {
    CR(c.gen, c.spec, c.deleting, c.own, on, c.status, c.trace)
  }

  /** A change of the spec, and a request for deletion, open a new generation. */
  function Bumped(c: CR, spec: Spec, deleting: bool): CR {
    CR(c.gen + 1, spec, deleting, c.own, c.held, c.status, c.trace)
  }

  /** Create-or-patch of a child CR with the derived spec. */
  function PatchedChild(w: World, child: Kind, spec: SubSpec): CR {
    if child !in w.cr then CR(1, Child(spec), false, false, false, NEW_STATUS, NoTrace)
    else if w.cr[child].spec == Child(spec) then w.cr[child]
    else Bumped(w.cr[child], Child(spec), w.cr[child].deleting)
  }

  function AfterEnsure(child: Kind): Stage {
    match child
    case Engine => Ensure(Applier)
    case Applier => TopFinish
    case _ => ExposeRoutes
  }

  function Saw(t: Trace, gen: nat, spec: WatcherSpec, child: Kind, c: Trace): Trace {
    if !c.SubTrace? then t
    else if t.TopTrace? then t.(seen := t.seen[child := c.e])
    else TopTrace(gen, spec, map[child := c.e])
  }

  /** What the Watcher's pass makes of the child it just patched. */
  function Ensured(child: Kind, p: Pass, top: WatcherSpec, c: CR, ok: bool, skipReady: bool): Pass {
    var m := ChildState(c.gen, c.status, skipReady);
    var q := Follow(p, EnsureStage(child, p.st, ok, m), AfterEnsure(child));
    if ok && m.Some? then q.(trace := Saw(p.trace, p.snap.gen, top, child, c.trace)) else q
  }

  predicate MayEnsure(w: World, child: Kind, wr: Write) {
    && At(w, Watcher, Ensure(child)) && child != Watcher && w.pass[Watcher].snap.spec.Parent?
    && (wr.ok ==> wr.applied)
  }

  function EnsurePass(w: World, child: Kind, wr: Write, skipReady: bool): World {
    if MayEnsure(w, child, wr) then
      var p := w.pass[Watcher];
      var top := p.snap.spec.w;
      var c := PatchedChild(w, child, Derive(child, top));
      SetPass(if wr.applied then PutCR(w, child, Some(c)) else w, Watcher,
              Ensured(child, p, top, c, wr.ok, skipReady))
    else w
  }

  // Deletion

  function Stopped(p: Pass, pc: Pc): Pass {
    p.(pc := pc)
  }

  /** After an object is dealt with: the next one, or give up the CR's own finalizer. */
  function AfterRelease(k: Kind, s: Shared): Pc {
    match s
    case KeystoneEndpoint => Release(Memcached)
    case KeystoneService => Release(Prometheus)
    case _ => Closing(DropOwn, FromDelete, false)
  }

  /** A failed read stops the delete, except that the Watcher ignores one on the Prometheus
      secret. */
  function AfterReleaseRead(k: Kind, p: Pass, s: Shared, r: Read): Pass {
    match r
    case Found(c) =>
      if Own(k) in c.fins then p.(copy := Some(c), pc := ReleaseUpdate(s)) else Stopped(p, AfterRelease(k, s))
    case Absent => Stopped(p, AfterRelease(k, s))
    case ReadFailed => Stopped(p, if s == Prometheus then AfterRelease(k, s) else Closing(Keep, FromDelete, false))
  }

  function ReleaseReadPass(w: World, k: Kind, s: Shared, r: Read): World {
    if k in w.pass && w.pass[k].pc == Release(s) && Readable(w, s, r)
    then SetPass(w, k, AfterReleaseRead(k, w.pass[k], s, r)) else w
  }

  /** A missing object counts as released, except for Memcached, where it is an error. */
  function ReleaseUpdatePass(w: World, k: Kind, s: Shared, wr: Write): World {
    if k in w.pass && w.pass[k].pc == ReleaseUpdate(s) && w.pass[k].copy.Some? then
      var p := w.pass[k];
      var fins := p.copy.value.fins - {Own(k)};
      var stop := Closing(Keep, FromDelete, false);
      if wr.applied && Accepts(w, s, p.copy.value, fins) then
        SetPass(SetFins(w, s, w.obj[s].deleting, fins), k,
                Stopped(p, if wr.ok then AfterRelease(k, s) else stop))
      else
        SetPass(w, k, Stopped(p, if wr.applied && s !in w.obj && s != Memcached then AfterRelease(k, s) else stop))
    else w
  }

  // Environment

  predicate SpecFits(k: Kind, spec: Spec) {
    spec.Parent? <==> k == Watcher
  }

  /** Users leave the Memcached instance and the Prometheus secret as they were. */
  predicate SameShared(a: Spec, b: Spec) {
    if a.Parent? && b.Parent? then
      && a.w.name == b.w.name && a.w.memcachedInstance == b.w.memcachedInstance
      && a.w.prometheusSecret == b.w.prometheusSecret
    else if a.Child? && b.Child? then
      a.s.memcachedInstance == b.s.memcachedInstance && a.s.prometheusSecret == b.s.prometheusSecret
    else false
  }

  function Created(w: World, k: Kind, spec: Spec): World {
    if k !in w.cr && SpecFits(k, spec)
    then PutCR(w, k, Some(CR(1, spec, false, false, false, NEW_STATUS, NoTrace))) else w
  }

  function Edited(w: World, k: Kind, spec: Spec): World {
    if k in w.cr && spec != w.cr[k].spec && SameShared(w.cr[k].spec, spec)
    then PutCR(w, k, Some(Bumped(w.cr[k], spec, w.cr[k].deleting))) else w
  }

  function DeleteAsked(w: World, k: Kind): World {
    if k in w.cr && !w.cr[k].deleting
    then PutCR(w, k, Stored(Bumped(w.cr[k], w.cr[k].spec, true))) else w
  }

  function HeldOn(w: World, k: Kind, on: bool): World {
    if k in w.cr && (on ==> !w.cr[k].deleting) then PutCR(w, k, Stored(HeldBy(w.cr[k], on))) else w
  }

  function EnvStep(w: World, e: EnvAct): World {
    match e
    case CreateCR(k, spec) => Created(w, k, spec)
    case EditSpec(k, spec) => Edited(w, k, spec)
    case RequestDelete(k) => DeleteAsked(w, k)
    case Hold(k, on) => HeldOn(w, k, on)
    case StsObserve(k) =>
      if k in w.sts then w.(sts := w.sts[k := w.sts[k].(observed := w.sts[k].gen)]) else w
    case StsScale(k, n) =>
      if k in w.sts then w.(sts := w.sts[k := w.sts[k].(ready := n)]) else w
    case StsVanish(k) => w.(sts := w.sts - {k})
    case ObjCreate(s, others) =>
      if s !in w.obj then SetFins(w, s, false, Foreigners(others)) else w
    case ObjDelete(s) =>
      if s in w.obj then SetFins(w, s, true, w.obj[s].fins) else w
    case ObjForeign(s, others) =>
      if s in w.obj && (w.obj[s].deleting ==> Foreigners(others) <= w.obj[s].fins)
      then SetFins(w, s, w.obj[s].deleting, Foreigners(others) + Owners(w.obj[s].fins)) else w
    case JobEnds(h, good) =>
      if h in w.jobs && !w.jobs[h].Complete?
      then w.(jobs := w.jobs[h := if good then Complete else Broken]) else w
  }

  // Runs

  function ChildStep(w: World, k: Kind, a: ChildAct): World {
    match a
    case DoInputs(main, prom) =>
      Local(w, k, Inputs, (st: Status) => InputStage(k, st, main, prom, REQUEUE), MemRead)
    case DoMemRead(r, ready) => ReadMemcached(w, k, r, ready)
    case DoMemUpdate(wr) => UpdateMemcached(w, k, wr)
    case DoConfigure(c) => Local(w, k, Configure, (st: Status) => ConfigStage(st, c), CheckTls)
    case DoTls(t) => Local(w, k, CheckTls, (st: Status) => TlsStage(k, st, t), CheckHash)
    case DoHash(h) => Local(w, k, CheckHash, (st: Status) => HashStage(st, h), Deploy)
    case DoDeploy(ca, applied, problem) => DeployPass(w, k, ca, applied, problem)
    case DoExpose(s) => Local(w, k, Expose, (st: Status) => ExposeStage(st, s), Publish)
    case DoPublish(wr, others, m, n) => PublishPass(w, k, wr, others, m, n)
    case DoFinish => Local(w, k, Finish, (st: Status) => FinalStage(st), Finish)
  }

  function DropDbPass(w: World, ok: bool): World {
    if Watcher in w.pass && w.pass[Watcher].pc == DropDb
    then SetPass(w, Watcher, Stopped(w.pass[Watcher],
           if ok then Release(KeystoneService) else Closing(Keep, FromDelete, false)))
    else w
  }

  function DatabasesStage(st: Status, d: DbReply, m: MqReply): Flow {
    if DbStage(st, d).Go? then MqStage(DbStage(st, d).st, m) else DbStage(st, d)
  }

  function TopStep(w: World, t: TopAct): World {
    match t
    case DoDatabases(d, m) =>
      Local(w, Watcher, Databases, (st: Status) => DatabasesStage(st, d, m), TopInputs)
    case DoTopInputs(main, url, prom, copy) => TopInputsPass(w, main, url, prom, copy)
    case DoPromUpdate(wr) => UpdatePrometheus(w, wr)
    case DoSubSecret(ok) => Local(w, Watcher, SubSecret, (st: Status) => SubSecretStage(st, ok), Keystone)
    case DoKeystone(wr, others, m) => KeystonePass(w, wr, others, m)
    case DoTopConfig(ok) => Local(w, Watcher, TopConfig, (st: Status) => TopConfigStage(st, ok), DbSync)
    case DoDbSync(after) => DbSyncPass(w, after)
    case DoCron(ok) => Local(w, Watcher, Cron, (st: Status) => CronStage(st, ok), Ensure(Api))
    case DoEnsure(child, wr, skipReady) => EnsurePass(w, child, wr, skipReady)
    case DoExposeRoutes(r) =>
      Local(w, Watcher, ExposeRoutes, (st: Status) => ExposeRoutesStage(st, r), Ensure(Engine))
    case DoTopFinish(ok) => Local(w, Watcher, TopFinish, (st: Status) => TopFinalStage(st, ok), TopFinish)
    case DoDropDb(ok) => DropDbPass(w, ok)
  }

  function Apply(w: World, l: Label): World {
    match l
    case Start(k, rbac, rbacOk) => DoStart(w, k, rbac, rbacOk)
    case Crash(k) => w.(pass := w.pass - {k})
    case WriteMeta(k, applied) => DoWriteMeta(w, k, applied)
    case WriteStatus(k, applied, skipReady) => DoWriteStatus(w, k, applied, skipReady)
    case ChildDoes(k, a) => ChildStep(w, k, a)
    case WatcherDoes(t) => TopStep(w, t)
    case ReleaseReads(k, s, r) => ReleaseReadPass(w, k, s, r)
    case ReleaseWrites(k, s, wr) => ReleaseUpdatePass(w, k, s, wr)
    case EnvDoes(e) => EnvStep(w, e)
  }

  function Run(w: World, ls: seq<Label>): World
    decreases |ls|
  {
    if ls == [] then w else Apply(Run(w, ls[..|ls| - 1]), ls[|ls| - 1])
  }
}
