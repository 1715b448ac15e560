/** The stages of a reconcile pass as functions on the status being built. A stage either goes on
    or halts the pass with an exit. The sequential reconcilers and the interleaved model both run
    these same stages. */
module Stages {
  import opened Base
  import opened Conditions
  import opened Resources

  /** hash is the recorded input hash for a child, the recorded dbsync job hash for the Watcher. */
  datatype Status = Status(conds: Table, observed: nat, hash: Option<Digest>, ready: nat)

  const NEW_STATUS := Status(map[], 0, None, 0)

  datatype Flow = Go(st: Status) | Halt(st: Status, exit: Exit)

  function Put(st: Status, t: Type, s: State): Status {
    st.(conds := st.conds[t := s])
  }

  function Fail(st: Status): Flow {
    Halt(st, Exit(0, true))
  }

  /** A pass starts by resetting every condition and recording the generation it read. */
  function Begin(k: Kind, gen: nat, st: Status): Status {
    st.(conds := InitFor(k), observed := gen)
  }

  /** The deferred write reports the worst condition when the pass left Ready undecided. */
  function Deferred(st: Status, skipReady: bool): Status {
    if Get(st.conds, Ready) == Unknown && Mirror(st.conds, skipReady).Some?
    then Put(st, Ready, Mirror(st.conds, skipReady).value)
    else st
  }

  /** Exits of a pass that does not get past its opening: register, delete or work. */
  datatype Gate = RegisterFirst | OnlyInit | Delete | Work

  function GateOf(own: bool, deleting: bool, isNew: bool): Gate {
    if !deleting && !own then RegisterFirst
    else if isNew then OnlyInit
    else if deleting then Delete
    else Work
  }

  // Children

  /** What ensureSecret makes of a secret. */
  datatype SecretRead = Got(hash: Digest) | Missing | Bad

  function InputStage(k: Kind, st: Status, main: SecretRead, prom: SecretRead, timeout: nat): Flow {
    match main
    case Missing => Halt(Put(st, InputReady, False(Info)), Exit(timeout, false))
    case Bad => Fail(Put(st, InputReady, False(Warning)))
    case Got(_) =>
      if k == Applier || prom.Got? then Go(Put(st, InputReady, True))
      else Fail(Put(st, InputReady, False(Warning)))
  }

  datatype MemReply = MemReady | MemNotFound | MemNotReady | MemError

  function MemStage(st: Status, m: MemReply): Flow {
    match m
    case MemReady => Go(Put(st, MemcachedReady, True))
    case MemError => Fail(Put(st, MemcachedReady, False(Warning)))
    case _ => Fail(Put(st, MemcachedReady, False(Info)))
  }

  function MemUpdateStage(st: Status, ok: bool): Flow {
    if ok then Go(st) else Fail(Put(st, MemcachedReady, False(Warning)))
  }

  datatype ConfigReply = ConfigOk | NoKeystone | ConfigFailed

  function ConfigStage(st: Status, c: ConfigReply): Flow {
    match c
    case ConfigOk => Go(st)
    case NoKeystone => Fail(Put(st, ServiceConfigReady, False(Warning)))
    case ConfigFailed => Fail(st)
  }

  datatype TlsReply = TlsOk | TlsMissing | TlsBad

  /** Only the API validates TLS secrets; a missing one stops the pass without a requeue. */
  function TlsStage(k: Kind, st: Status, t: TlsReply): Flow {
    if k != Api then Go(st)
    else match t
      case TlsOk => Go(Put(st, TLSInputReady, True))
      case TlsMissing => Halt(Put(st, TLSInputReady, False(Info)), Exit(0, false))
      case TlsBad => Fail(Put(st, TLSInputReady, False(Warning)))
  }

  /** A new input hash is recorded and the pass stops; only a recorded hash is deployed. */
  function HashStage(st: Status, h: Digest): Flow {
    if st.hash == Some(h) then Go(Put(st, ServiceConfigReady, True))
    else Halt(st.(hash := Some(h)), Exit(0, false))
  }

  datatype Sts = Sts(gen: nat, observed: nat, ready: nat, work: Workload)

  datatype StsReply = StsFailed | StsNotFound | StsRequeue(after: Delay) | StsIs(obj: Sts)

  /** Create-or-patch of a StatefulSet: a spec that differs bumps the generation. */
  function Patch(o: Option<Sts>, work: Workload): Sts {
    if o.None? then Sts(1, 0, 0, work)
    else if o.value.work == work then o.value
    else o.value.(gen := o.value.gen + 1, work := work)
  }

  predicate StsDone(o: Sts, replicas: nat) {
    o.gen == o.observed && o.ready == replicas
  }

  /** The API controller treats a NotFound from the patch as an error and passes a requeue on; the
      other two report progress, and their caller drops the requeue. */
  function DeployStage(k: Kind, st: Status, replicas: nat, r: StsReply): Flow {
    match r
    case StsFailed => Fail(Put(st, DeploymentReady, False(Warning)))
    case StsNotFound =>
      if k == Api then Fail(Put(st, DeploymentReady, False(Warning)))
      else Halt(Put(st, DeploymentReady, False(Info)), Exit(0, false))
    case StsRequeue(n) =>
      Halt(Put(st, DeploymentReady, False(Info)), Exit(if k == Api then n else 0, false))
    case StsIs(o) =>
      var st1 := if o.gen == o.observed then st.(ready := o.ready) else st;
      if st1.ready == replicas && o.gen == o.observed then Go(Put(st1, DeploymentReady, True))
      else Halt(Put(st1, DeploymentReady, False(Info)), Exit(0, false))
  }

  datatype ServiceReply = ServicesOk | ServiceFailed | ServiceWait | UrlFailed

  function ExposeStage(st: Status, s: ServiceReply): Flow {
    match s
    case ServicesOk => Go(Put(st, CreateServiceReady, True))
    case ServiceFailed => Fail(Put(st, CreateServiceReady, False(Warning)))
    case ServiceWait => Halt(Put(st, CreateServiceReady, False(Info)), Exit(0, false))
    case UrlFailed => Fail(st)
  }

  /** Reply of a create-or-patch whose object reports a state of its own to copy. */
  datatype ObjectReply = ObjectFailed | ObjectIs(mirrored: Option<State>, requeue: nat)

  function Copy(st: Status, t: Type, s: Option<State>): Status {
    if s.Some? then Put(st, t, s.value) else st
  }

  function EndpointStage(st: Status, r: ObjectReply): Flow {
    match r
    case ObjectFailed => Fail(st)
    case ObjectIs(m, n) =>
      var st1 := Copy(st, KeystoneEndpointReady, m);
      if n != 0 then Halt(st1, Exit(n, false)) else Go(st1)
  }

  function FinalStage(st: Status): Flow {
    Halt(if AllSubTrue(st.conds) then Put(st, Ready, True) else st, Exit(0, false))
  }

  // The Watcher

  datatype Rbac = Rbac(account: State, role: State, binding: State)

  function RbacStage(st: Status, r: Rbac): Status {
    Put(Put(Put(st, ServiceAccountReady, r.account), RoleReady, r.role), RoleBindingReady, r.binding)
  }

  datatype DbReply = DbAccountFailed | DbFailed | DbWait(after: Delay) | DbOk

  function DbStage(st: Status, d: DbReply): Flow {
    match d
    case DbAccountFailed => Fail(Put(st, DBAccountReady, False(Warning)))
    case DbFailed => Fail(Put(Put(st, DBAccountReady, True), DBReady, False(Warning)))
    case DbWait(n) => Halt(Put(Put(st, DBAccountReady, True), DBReady, False(Info)), Exit(n, false))
    case DbOk => Go(Put(Put(st, DBAccountReady, True), DBReady, True))
  }

  datatype MqReply = MqFailed | MqWait | MqOk

  function MqStage(st: Status, m: MqReply): Flow {
    match m
    case MqFailed => Fail(Put(st, TransportURLReady, False(Warning)))
    case MqWait => Halt(Put(st, TransportURLReady, False(Warning)), Exit(10, false))
    case MqOk => Go(Put(st, TransportURLReady, True))
  }

  /** Any unusable secret is an error here; InputReady turns True only after the sub-level secret
      is written. */
  function TopInputStage(st: Status, main: SecretRead, url: SecretRead, prom: SecretRead): Flow {
    if !main.Got? then Fail(Put(st, InputReady, False(if main.Missing? then Info else Warning)))
    else if !url.Got? then Fail(Put(st, InputReady, False(if url.Missing? then Info else Warning)))
    else if !prom.Got? then Fail(Put(st, InputReady, False(Warning)))
    else Go(st)
  }

  function PromUpdateStage(st: Status, ok: bool): Flow {
    if ok then Go(st) else Fail(Put(st, InputReady, False(Warning)))
  }

  /** A failure to write the sub-level secret is swallowed: no error, no requeue. */
  function SubSecretStage(st: Status, ok: bool): Flow {
    if ok then Go(Put(st, InputReady, True)) else Halt(st, Exit(0, false))
  }

  /** A requeue asked for by the KeystoneService is ignored. */
  function KeystoneStage(st: Status, r: ObjectReply): Flow {
    match r
    case ObjectFailed => Fail(Put(st, KeystoneServiceReady, False(Error)))
    case ObjectIs(m, _) => Go(Copy(st, KeystoneServiceReady, m))
  }

  function TopConfigStage(st: Status, ok: bool): Flow {
    if ok then Go(Put(st, ServiceConfigReady, True))
    else Fail(Put(st, ServiceConfigReady, False(Warning)))
  }

  datatype JobReply = JobRunning(after: Delay) | JobFailed | JobDone

  function DbSyncStage(st: Status, h: Digest, j: JobReply): Flow {
    match j
    case JobRunning(n) => Halt(Put(st, DBSyncReady, False(Info)), Exit(n, false))
    case JobFailed => Fail(Put(st, DBSyncReady, False(Warning)))
    case JobDone => Go(Put(st.(hash := Some(h)), DBSyncReady, True))
  }

  function CronStage(st: Status, ok: bool): Flow {
    if ok then Go(Put(st, CronJobReady, True)) else Fail(Put(st, CronJobReady, False(Warning)))
  }

  /** Mirror a child only when its status was computed for its current generation. */
  function ChildState(gen: nat, child: Status, skipReady: bool): Option<State> {
    if gen == child.observed then Mirror(child.conds, skipReady) else None
  }

  function EnsureStage(child: Kind, st: Status, ok: bool, mirrored: Option<State>): Flow {
    if ok then Go(Copy(st, ReadyTypeOf(child), mirrored))
    else Fail(Put(st, ReadyTypeOf(child), False(Error)))
  }

  datatype RouteReply = RoutesOk | RoutesFailed | RoutesWait(after: Delay)

  function ExposeRoutesStage(st: Status, r: RouteReply): Flow {
    match r
    case RoutesOk => Go(Put(st, ExposeServiceReady, True))
    case RoutesFailed => Fail(Put(st, ExposeServiceReady, False(Warning)))
    case RoutesWait(n) => Halt(Put(st, ExposeServiceReady, False(Info)), Exit(n, false))
  }

  function TopFinalStage(st: Status, cleanupOk: bool): Flow {
    if cleanupOk then FinalStage(st) else Fail(st)
  }
}
