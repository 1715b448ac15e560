/** What the Watcher's working pass reports: for all replies, the state of every condition, the exit, the
    record and what is written. */
module TopReports {
  import opened Base
  import opened Conditions
  import opened Resources
  import opened Stages
  import opened Secrets
  import opened TopPass
  import opened TopTheorems
  import SR = SubReports

  // How far a pass gets

  predicate AllRead(c: Top, r: TopReplies) {
    r.db == DbOk && r.mq == MqOk && MainRead(c, r).Got? && UrlRead(r).Got? && PromRead(r).Got?
  }

  predicate Ours(c: Top, r: TopReplies) {
    AllRead(c, r) && (r.promOwn || r.promUpdateOk)
  }

  predicate InputsDone(c: Top, r: TopReplies) {
    Ours(c, r) && r.subSecretOk
  }

  predicate Rendered(c: Top, r: TopReplies) {
    InputsDone(c, r) && r.keystone.ObjectIs? && r.configOk
  }

  predicate Synced(c: Top, r: TopReplies) {
    Rendered(c, r) && r.job == JobDone
  }

  predicate Scheduled(c: Top, r: TopReplies) {
    Synced(c, r) && r.cronOk
  }

  predicate ApiPatched(c: Top, r: TopReplies) {
    Scheduled(c, r) && ChildAnswers(c, r, Api)
  }

  predicate Routed(c: Top, r: TopReplies) {
    ApiPatched(c, r) && r.routes == RoutesOk
  }

  predicate EnginePatched(c: Top, r: TopReplies) {
    Routed(c, r) && ChildAnswers(c, r, Engine)
  }

  predicate AllPatched(c: Top, r: TopReplies) {
    EnginePatched(c, r) && ChildAnswers(c, r, Applier)
  }

  // What is told

  function SecretState(s: SecretRead): State {
    if s == Missing then False(Info) else False(Warning)
  }

  /** What is said of a child: an error if it could not be patched, and the worst of its own conditions if
      they are those of its current generation. */
  function ChildTold(c: Top, r: TopReplies, k: Kind, skipReady: bool): State {
    match r.child(k, Derive(k, c.spec))
    case ChildFailed => False(Error)
    case ChildIs(gen, st) =>
      if st.observed == gen && Mirror(st.conds, skipReady).Some? then Mirror(st.conds, skipReady).value else Unknown
  }

  /** The state of each condition but Ready; undecided where the pass does not get. */
  function Told(c: Top, r: TopReplies, skipReady: bool, t: Type): State {
    match t
    case ServiceAccountReady => r.rbac.account
    case RoleReady => r.rbac.role
    case RoleBindingReady => r.rbac.binding
    case DBAccountReady => if r.db == DbAccountFailed then False(Warning) else True
    case DBReady =>
      (match r.db
       case DbAccountFailed => Unknown
       case DbFailed => False(Warning)
       case DbWait(_) => False(Info)
       case DbOk => True)
    case TransportURLReady => if r.db != DbOk then Unknown else if r.mq == MqOk then True else False(Warning)
    case InputReady =>
      if r.db != DbOk || r.mq != MqOk then Unknown
      else if !MainRead(c, r).Got? then SecretState(MainRead(c, r))
      else if !UrlRead(r).Got? then SecretState(UrlRead(r))
      else if !PromRead(r).Got? || !Ours(c, r) then False(Warning)
      else if r.subSecretOk then True else Unknown
    case KeystoneServiceReady =>
      if !InputsDone(c, r) then Unknown
      else if r.keystone == ObjectFailed then False(Error)
      else if r.keystone.mirrored.Some? then r.keystone.mirrored.value else Unknown
    case ServiceConfigReady =>
      if !InputsDone(c, r) || r.keystone == ObjectFailed then Unknown else if r.configOk then True else False(Warning)
    case DBSyncReady =>
      if !Rendered(c, r) then Unknown
      else (match r.job case JobRunning(_) => False(Info) case JobFailed => False(Warning) case JobDone => True)
    case CronJobReady => if !Synced(c, r) then Unknown else if r.cronOk then True else False(Warning)
    case APIReady => if !Scheduled(c, r) then Unknown else ChildTold(c, r, Api, skipReady)
    case ExposeServiceReady =>
      if !ApiPatched(c, r) then Unknown
      else (match r.routes case RoutesOk => True case RoutesFailed => False(Warning) case RoutesWait(_) => False(Info))
    case EngineReady => if !Routed(c, r) then Unknown else ChildTold(c, r, Engine, skipReady)
    case ApplierReady => if !EnginePatched(c, r) then Unknown else ChildTold(c, r, Applier, skipReady)
    case _ => Unknown
  }

  /** An error for everything that is wrong, but for a sub-level secret that cannot be written; a requeue
      for a database, a transport URL, a job or a route that is on its way. */
  predicate ExitTold(c: Top, r: TopReplies, e: Exit) {
    && (e.failed <==>
          || r.db == DbAccountFailed || r.db == DbFailed || (r.db == DbOk && r.mq == MqFailed)
          || (r.db == DbOk && r.mq == MqOk && !Ours(c, r))
          || (InputsDone(c, r) && !Rendered(c, r))
          || (Rendered(c, r) && r.job == JobFailed) || (Synced(c, r) && !r.cronOk)
          || (Scheduled(c, r) && !ApiPatched(c, r)) || (ApiPatched(c, r) && r.routes == RoutesFailed)
          || (Routed(c, r) && !AllPatched(c, r)) || (AllPatched(c, r) && !r.cleanupOk))
    && e.requeueAfter ==
         if r.db.DbWait? then r.db.after
         else if r.db == DbOk && r.mq == MqWait then 10
         else if Rendered(c, r) && r.job.JobRunning? then r.job.after
         else if ApiPatched(c, r) && r.routes.RoutesWait? then r.routes.after
         else 0
  }

  /** The children that are patched, in order. */
  function Kinds(c: Top, r: TopReplies): seq<Kind> {
    if EnginePatched(c, r) then [Api, Engine, Applier] else if Routed(c, r) then [Api, Engine]
    else if Scheduled(c, r) then [Api] else []
  }

  predicate WritesTold(c: Top, r: TopReplies, o: TopOutcome) {
    && o.own == c.own && o.st.observed == c.gen && o.st.ready == c.st.ready
    && o.st.hash == (if Synced(c, r) then Some(JobHash(c.spec)) else c.st.hash)
    && (o.sent.prom <==> AllRead(c, r) && !r.promOwn)
    && |o.sent.children| == |Kinds(c, r)| && forall i | 0 <= i < |Kinds(c, r)| :: o.sent.children[i].0 == Kinds(c, r)[i]
  }

  // From the end to the beginning

  /** The order in which a pass comes to its conditions, from the transport URL on. */
  function Place(t: Type): nat {
    match t
    case TransportURLReady => 1
    case InputReady => 2
    case KeystoneServiceReady => 3
    case ServiceConfigReady => 4
    case DBSyncReady => 5
    case CronJobReady => 6
    case APIReady => 7
    case ExposeServiceReady => 8
    case EngineReady => 9
    case ApplierReady => 10
    case _ => 0
  }

  /** From place n on the conditions are what is told; the ones before, and the counts, are as they were. */
  ghost predicate Tells(c: Top, r: TopReplies, skipReady: bool, st: Status, end: Status, n: nat) {
    match end
    case Status(conds, observed, _, ready) =>
      && (forall t | Place(t) >= n :: Get(conds, t) == Told(c, r, skipReady, t))
      && (forall t | Place(t) < n && t != Ready :: Get(conds, t) == Get(st.conds, t))
      && observed == st.observed && ready == st.ready
  }

  ghost predicate Blank(st: Status, n: nat) {
    match st
    case Status(conds, _, _, _) => forall t | Place(t) >= n :: Get(conds, t) == Unknown
  }

  /** One more condition is set, and nothing else but perhaps the hash. */
  ghost predicate Marks(st: Status, next: Status, t: Type, s: State) {
    match next
    case Status(conds, observed, _, ready) =>
      && Get(conds, t) == s && (forall u | u != t :: Get(conds, u) == Get(st.conds, u))
      && observed == st.observed && ready == st.ready
  }

  lemma PutMarks(st: Status, t: Type, s: State)
    ensures Marks(st, Put(st, t, s), t, s)
  {}

  lemma PlaceIsItsOwn(t: Type, u: Type)
    requires Place(t) == Place(u) > 0
    ensures t == u
  {}

  lemma StaysBlank(st: Status, next: Status, t: Type, s: State)
    requires Marks(st, next, t, s) && Blank(st, Place(t))
    ensures Blank(next, Place(t) + 1)
  {}

  /** The pass goes on. */
  lemma Goes(c: Top, r: TopReplies, skipReady: bool, st: Status, next: Status, end: Status, t: Type)
    requires Place(t) > 0 && Marks(st, next, t, Told(c, r, skipReady, t)) && Tells(c, r, skipReady, next, end, Place(t) + 1)
    ensures Tells(c, r, skipReady, st, end, Place(t))
  {
    forall u | Place(u) == Place(t) ensures u == t {
      PlaceIsItsOwn(u, t);
    }
  }

  /** The pass ends here, and says nothing of what would have come. */
  lemma Ends(c: Top, r: TopReplies, skipReady: bool, st: Status, end: Status, t: Type)
    requires Place(t) > 0 && Marks(st, end, t, Told(c, r, skipReady, t)) && Blank(st, Place(t))
    requires forall u | Place(u) > Place(t) :: Told(c, r, skipReady, u) == Unknown
    ensures Tells(c, r, skipReady, st, end, Place(t))
  {
    forall u | Place(u) == Place(t) ensures u == t {
      PlaceIsItsOwn(u, t);
    }
  }

  lemma FinalKeeps(c: Top, r: TopReplies, skipReady: bool, st: Status, end: Status, n: nat)
    requires Tells(c, r, skipReady, st, end, n) && n > 0
    ensures Tells(c, r, skipReady, st, FinalStage(end).st, n) && FinalStage(end).st.hash == end.hash
  {}

  lemma EnsuringMarks(c: Top, r: TopReplies, k: Kind, st: Status, skipReady: bool)
    requires k != Watcher && Blank(st, Place(ReadyTypeOf(k)))
    ensures var f := Ensuring(c, r, k, st, skipReady);
      && Marks(st, f.st, ReadyTypeOf(k), ChildTold(c, r, k, skipReady)) && f.st.hash == st.hash
      && (f.Halt? <==> !ChildAnswers(c, r, k)) && (f.Halt? ==> f.exit == Exit(0, true))
  {
    assert Get(st.conds, ReadyTypeOf(k)) == Unknown;
  }

  // Children

  lemma ApplierTells(c: Top, r: TopReplies, st: Status, sent: TopSent, skipReady: bool)
    requires EnginePatched(c, r) && Blank(st, 10)
    ensures var o := FromApplier(c, r, st, sent, skipReady);
      && Tells(c, r, skipReady, st, o.st, 10) && o.st.hash == st.hash && o.own == c.own
      && o.exit == Exit(0, !AllPatched(c, r) || !r.cleanupOk) && o.sent == AndChild(sent, Applier, c)
  {
    var f := Ensuring(c, r, Applier, st, skipReady);
    EnsuringMarks(c, r, Applier, st, skipReady);
    Ends(c, r, skipReady, st, f.st, ApplierReady);
    FinalKeeps(c, r, skipReady, st, f.st, 10);
  }

  lemma EngineTells(c: Top, r: TopReplies, st: Status, sent: TopSent, skipReady: bool)
    requires Routed(c, r) && Blank(st, 9)
    ensures var o := FromEngine(c, r, st, sent, skipReady);
      && Tells(c, r, skipReady, st, o.st, 9) && o.st.hash == st.hash && o.own == c.own
      && o.exit == Exit(0, !AllPatched(c, r) || !r.cleanupOk)
      && o.sent == if EnginePatched(c, r) then AndChild(AndChild(sent, Engine, c), Applier, c) else AndChild(sent, Engine, c)
  {
    var f := Ensuring(c, r, Engine, st, skipReady);
    EnsuringMarks(c, r, Engine, st, skipReady);
    if f.Go? {
      StaysBlank(st, f.st, EngineReady, ChildTold(c, r, Engine, skipReady));
      ApplierTells(c, r, f.st, AndChild(sent, Engine, c), skipReady);
      Goes(c, r, skipReady, st, f.st, FromEngine(c, r, st, sent, skipReady).st, EngineReady);
    } else {
      Ends(c, r, skipReady, st, f.st, EngineReady);
    }
  }

  /** The exit from the routes on. */
  function RoutesExit(c: Top, r: TopReplies): Exit {
    Exit(if r.routes.RoutesWait? then r.routes.after else 0,
         r.routes == RoutesFailed || (Routed(c, r) && (!AllPatched(c, r) || !r.cleanupOk)))
  }

  lemma RoutesTells(c: Top, r: TopReplies, st: Status, sent: TopSent, skipReady: bool)
    requires ApiPatched(c, r) && Blank(st, 8)
    ensures var o := FromRoutes(c, r, st, sent, skipReady);
      && Tells(c, r, skipReady, st, o.st, 8) && o.st.hash == st.hash && o.own == c.own
      && o.exit == RoutesExit(c, r)
      && o.sent == if EnginePatched(c, r) then AndChild(AndChild(sent, Engine, c), Applier, c)
                   else if Routed(c, r) then AndChild(sent, Engine, c) else sent
  {
    var f := ExposeRoutesStage(st, r.routes);
    PutMarks(st, ExposeServiceReady, Told(c, r, skipReady, ExposeServiceReady));
    if f.Go? {
      StaysBlank(st, f.st, ExposeServiceReady, True);
      EngineTells(c, r, f.st, sent, skipReady);
      Goes(c, r, skipReady, st, f.st, FromRoutes(c, r, st, sent, skipReady).st, ExposeServiceReady);
    } else {
      Ends(c, r, skipReady, st, f.st, ExposeServiceReady);
    }
  }

  /** What is sent once the schema is there. */
  function Children(c: Top, r: TopReplies, sent: TopSent): TopSent {
    var s1 := AndChild(sent, Api, c);
    if EnginePatched(c, r) then AndChild(AndChild(s1, Engine, c), Applier, c)
    else if Routed(c, r) then AndChild(s1, Engine, c) else s1
  }

  function ApiExit(c: Top, r: TopReplies): Exit {
    if ApiPatched(c, r) then RoutesExit(c, r) else Exit(0, true)
  }

  lemma ApiTells(c: Top, r: TopReplies, st: Status, sent: TopSent, skipReady: bool)
    requires Scheduled(c, r) && Blank(st, 7)
    ensures var o := FromApi(c, r, st, sent, skipReady);
      && Tells(c, r, skipReady, st, o.st, 7) && o.st.hash == st.hash && o.own == c.own
      && o.exit == ApiExit(c, r) && o.sent == Children(c, r, sent)
  {
    var f := Ensuring(c, r, Api, st, skipReady);
    EnsuringMarks(c, r, Api, st, skipReady);
    if f.Go? {
      StaysBlank(st, f.st, APIReady, ChildTold(c, r, Api, skipReady));
      RoutesTells(c, r, f.st, AndChild(sent, Api, c), skipReady);
      Goes(c, r, skipReady, st, f.st, FromApi(c, r, st, sent, skipReady).st, APIReady);
    } else {
      Ends(c, r, skipReady, st, f.st, APIReady);
    }
  }

  // The schema

  function SyncedHash(c: Top, r: TopReplies, h: Option<Digest>): Option<Digest> {
    if Synced(c, r) then Some(JobHash(c.spec)) else h
  }

  function SyncedSent(c: Top, r: TopReplies, sent: TopSent): TopSent {
    if Scheduled(c, r) then Children(c, r, sent) else sent
  }

  function CronExit(c: Top, r: TopReplies): Exit {
    if Scheduled(c, r) then ApiExit(c, r) else Exit(0, true)
  }

  lemma CronTells(c: Top, r: TopReplies, st: Status, sent: TopSent, skipReady: bool)
    requires Synced(c, r) && Blank(st, 6)
    ensures var i := CronStage(st, r.cronOk);
      var o := if i.Halt? then Stop(c, i, sent) else FromApi(c, r, i.st, sent, skipReady);
      && Tells(c, r, skipReady, st, o.st, 6) && o.st.hash == st.hash && o.own == c.own
      && o.exit == CronExit(c, r) && o.sent == SyncedSent(c, r, sent)
  {
    var i := CronStage(st, r.cronOk);
    PutMarks(st, CronJobReady, Told(c, r, skipReady, CronJobReady));
    if i.Go? {
      StaysBlank(st, i.st, CronJobReady, True);
      ApiTells(c, r, i.st, sent, skipReady);
      Goes(c, r, skipReady, st, i.st, FromApi(c, r, i.st, sent, skipReady).st, CronJobReady);
    } else {
      Ends(c, r, skipReady, st, i.st, CronJobReady);
    }
  }

  /** From the dbsync job on. */
  function FromJob(c: Top, r: TopReplies, st: Status, sent: TopSent, skipReady: bool): TopOutcome {
    var h := DbSyncStage(st, JobHash(c.spec), r.job);
    if h.Halt? then Stop(c, h, sent)
    else
      var i := CronStage(h.st, r.cronOk);
      if i.Halt? then Stop(c, i, sent) else FromApi(c, r, i.st, sent, skipReady)
  }

  function JobExit(c: Top, r: TopReplies): Exit {
    if Synced(c, r) then CronExit(c, r) else Exit(if r.job.JobRunning? then r.job.after else 0, r.job == JobFailed)
  }

  lemma JobMarks(st: Status, h: Digest)
    ensures Marks(st, Put(st.(hash := Some(h)), DBSyncReady, True), DBSyncReady, True)
  {}

  lemma JobTells(c: Top, r: TopReplies, st: Status, sent: TopSent, skipReady: bool)
    requires Rendered(c, r) && Blank(st, 5)
    ensures var o := FromJob(c, r, st, sent, skipReady);
      && Tells(c, r, skipReady, st, o.st, 5) && o.st.hash == SyncedHash(c, r, st.hash) && o.own == c.own
      && o.exit == JobExit(c, r) && o.sent == SyncedSent(c, r, sent)
  {
    var h := DbSyncStage(st, JobHash(c.spec), r.job);
    if h.Go? {
      JobMarks(st, JobHash(c.spec));
      StaysBlank(st, h.st, DBSyncReady, True);
      CronTells(c, r, h.st, sent, skipReady);
      Goes(c, r, skipReady, st, h.st, FromJob(c, r, st, sent, skipReady).st, DBSyncReady);
    } else {
      PutMarks(st, DBSyncReady, Told(c, r, skipReady, DBSyncReady));
      Ends(c, r, skipReady, st, h.st, DBSyncReady);
    }
  }

  function FromConfig(c: Top, r: TopReplies, st: Status, sent: TopSent, skipReady: bool): TopOutcome {
    var g := TopConfigStage(st, r.configOk);
    if g.Halt? then Stop(c, g, sent) else FromJob(c, r, g.st, sent, skipReady)
  }

  function ConfigExit(c: Top, r: TopReplies): Exit {
    if Rendered(c, r) then JobExit(c, r) else Exit(0, true)
  }

  lemma ConfigTells(c: Top, r: TopReplies, st: Status, sent: TopSent, skipReady: bool)
    requires InputsDone(c, r) && r.keystone.ObjectIs? && Blank(st, 4)
    ensures var o := FromConfig(c, r, st, sent, skipReady);
      && Tells(c, r, skipReady, st, o.st, 4) && o.st.hash == SyncedHash(c, r, st.hash) && o.own == c.own
      && o.exit == ConfigExit(c, r) && o.sent == SyncedSent(c, r, sent)
  {
    var g := TopConfigStage(st, r.configOk);
    PutMarks(st, ServiceConfigReady, Told(c, r, skipReady, ServiceConfigReady));
    if g.Go? {
      StaysBlank(st, g.st, ServiceConfigReady, True);
      JobTells(c, r, g.st, sent, skipReady);
      Goes(c, r, skipReady, st, g.st, FromConfig(c, r, st, sent, skipReady).st, ServiceConfigReady);
    } else {
      Ends(c, r, skipReady, st, g.st, ServiceConfigReady);
    }
  }

  lemma KeystoneMarks(c: Top, r: TopReplies, st: Status, skipReady: bool)
    requires InputsDone(c, r) && Blank(st, 3)
    ensures var f := KeystoneStage(st, r.keystone).st;
      Marks(st, f, KeystoneServiceReady, Told(c, r, skipReady, KeystoneServiceReady)) && f.hash == st.hash
  {
    assert Place(KeystoneServiceReady) == 3;
  }

  lemma KeystoneTells(c: Top, r: TopReplies, st: Status, sent: TopSent, skipReady: bool)
    requires InputsDone(c, r) && Blank(st, 3)
    ensures var o := FromKeystone(c, r, st, sent, skipReady);
      && Tells(c, r, skipReady, st, o.st, 3) && o.st.hash == SyncedHash(c, r, st.hash) && o.own == c.own
      && o.exit == ConfigExit(c, r) && o.sent == SyncedSent(c, r, sent)
  {
    var f := KeystoneStage(st, r.keystone);
    KeystoneMarks(c, r, st, skipReady);
    if f.Go? {
      assert FromKeystone(c, r, st, sent, skipReady) == FromConfig(c, r, f.st, sent, skipReady);
      StaysBlank(st, f.st, KeystoneServiceReady, Told(c, r, skipReady, KeystoneServiceReady));
      ConfigTells(c, r, f.st, sent, skipReady);
      Goes(c, r, skipReady, st, f.st, FromKeystone(c, r, st, sent, skipReady).st, KeystoneServiceReady);
    } else {
      Ends(c, r, skipReady, st, f.st, KeystoneServiceReady);
    }
  }

  // Inputs

  function Takes(c: Top, r: TopReplies): TopSent {
    TopSent(AllRead(c, r) && !r.promOwn, [])
  }

  function InputsExit(c: Top, r: TopReplies): Exit {
    if InputsDone(c, r) then ConfigExit(c, r) else Exit(0, !Ours(c, r))
  }

  lemma InputsTells(c: Top, r: TopReplies, st: Status, skipReady: bool)
    requires r.db == DbOk && r.mq == MqOk && Blank(st, 2)
    ensures var o := FromInputs(c, r, st, skipReady);
      && Tells(c, r, skipReady, st, o.st, 2) && o.st.hash == SyncedHash(c, r, st.hash) && o.own == c.own
      && o.exit == InputsExit(c, r) && o.sent == SyncedSent(c, r, Takes(c, r))
  {
    var s := Told(c, r, skipReady, InputReady);
    PutMarks(st, InputReady, s);
    if InputsDone(c, r) {
      var next := Put(st, InputReady, True);
      assert FromInputs(c, r, st, skipReady) == FromKeystone(c, r, next, Takes(c, r), skipReady);
      StaysBlank(st, next, InputReady, True);
      KeystoneTells(c, r, next, Takes(c, r), skipReady);
      Goes(c, r, skipReady, st, next, FromInputs(c, r, st, skipReady).st, InputReady);
    } else if Ours(c, r) {
      assert FromInputs(c, r, st, skipReady) == TopOutcome(st, Exit(0, false), c.own, Takes(c, r));
        Ends(c, r, skipReady, st, st, InputReady);
    } else {
      assert FromInputs(c, r, st, skipReady) == TopOutcome(Put(st, InputReady, s), Exit(0, true), c.own, Takes(c, r));
      Ends(c, r, skipReady, st, Put(st, InputReady, s), InputReady);
    }
  }

  function MqExit(c: Top, r: TopReplies): Exit {
    if r.mq == MqOk then InputsExit(c, r) else Exit(if r.mq == MqWait then 10 else 0, r.mq == MqFailed)
  }

  lemma MqTells(c: Top, r: TopReplies, st: Status, skipReady: bool)
    requires r.db == DbOk && Blank(st, 1)
    ensures var o := FromMq(c, r, st, skipReady);
      && Tells(c, r, skipReady, st, o.st, 1) && o.st.hash == SyncedHash(c, r, st.hash) && o.own == c.own
      && o.exit == MqExit(c, r) && o.sent == SyncedSent(c, r, Takes(c, r))
  {
    var f := MqStage(st, r.mq);
    PutMarks(st, TransportURLReady, Told(c, r, skipReady, TransportURLReady));
    if f.Go? {
      StaysBlank(st, f.st, TransportURLReady, True);
      InputsTells(c, r, f.st, skipReady);
      Goes(c, r, skipReady, st, f.st, FromMq(c, r, st, skipReady).st, TransportURLReady);
    } else {
      Ends(c, r, skipReady, st, f.st, TransportURLReady);
    }
  }

  // The whole pass

  function FirstStatus(c: Top, r: TopReplies): Status {
    RbacStage(Begin(Watcher, c.gen, c.st), r.rbac)
  }

  /** Nothing but the rbac states is decided at first. */
  lemma FirstIsBlank(c: Top, r: TopReplies)
    ensures var st := FirstStatus(c, r);
      && Blank(st, 1) && st.hash == c.st.hash && st.observed == c.gen && st.ready == c.st.ready
      && Get(st.conds, ServiceAccountReady) == r.rbac.account && Get(st.conds, RoleReady) == r.rbac.role
      && Get(st.conds, RoleBindingReady) == r.rbac.binding
      && forall t | Place(t) == 0 && t !in {ServiceAccountReady, RoleReady, RoleBindingReady} :: Get(st.conds, t) == Unknown
  {}

  lemma DbKeeps(st: Status, d: DbReply)
    requires Blank(st, 1) && Get(st.conds, DBAccountReady) == Unknown && Get(st.conds, DBReady) == Unknown
    ensures var f := DbStage(st, d).st;
      && Blank(f, 1) && f.hash == st.hash && f.observed == st.observed && f.ready == st.ready
      && (forall t | t !in {DBAccountReady, DBReady} :: Get(f.conds, t) == Get(st.conds, t))
      && Get(f.conds, DBAccountReady) == (if d == DbAccountFailed then False(Warning) else True)
      && Get(f.conds, DBReady) == (match d case DbAccountFailed => Unknown case DbFailed => False(Warning)
                                           case DbWait(_) => False(Info) case DbOk => True)
  {
    assert Place(DBAccountReady) == 0 && Place(DBReady) == 0;
  }

  /** Every condition but Ready. */
  ghost predicate TableTold(c: Top, r: TopReplies, skipReady: bool, st: Status) {
    match st
    case Status(conds, _, _, _) => forall t | t != Ready :: Get(conds, t) == Told(c, r, skipReady, t)
  }

  function FullExit(c: Top, r: TopReplies): Exit {
    match r.db
    case DbWait(n) => Exit(n, false)
    case DbOk => MqExit(c, r)
    case _ => Exit(0, true)
  }

  lemma DbTells(c: Top, r: TopReplies, skipReady: bool)
    ensures var st := FirstStatus(c, r); var o := FromDb(c, r, st, skipReady);
      && TableTold(c, r, skipReady, o.st) && o.st.hash == SyncedHash(c, r, c.st.hash) && o.own == c.own
      && o.st.observed == c.gen && o.st.ready == c.st.ready
      && o.exit == FullExit(c, r) && o.sent == SyncedSent(c, r, Takes(c, r))
  {
    var st := FirstStatus(c, r);
    var f := DbStage(st, r.db);
    FirstIsBlank(c, r);
    DbKeeps(st, r.db);
    if f.Go? {
      MqTells(c, r, f.st, skipReady);
      FrontTells(c, r, skipReady, st, FromDb(c, r, st, skipReady).st);
    } else {
      assert FromDb(c, r, st, skipReady) == TopOutcome(f.st, f.exit, c.own, QUIET);
      StopTells(c, r, skipReady, st);
    }
  }

  lemma FrontTold(c: Top, r: TopReplies, skipReady: bool)
    ensures var f := DbStage(FirstStatus(c, r), r.db).st;
      forall t | Place(t) == 0 && t != Ready :: Get(f.conds, t) == Told(c, r, skipReady, t)
  {
    FirstIsBlank(c, r);
    DbKeeps(FirstStatus(c, r), r.db);
  }

  lemma FrontTells(c: Top, r: TopReplies, skipReady: bool, st: Status, end: Status)
    requires r.db == DbOk && st == FirstStatus(c, r) && Tells(c, r, skipReady, DbStage(st, r.db).st, end, 1)
    ensures TableTold(c, r, skipReady, end)
  {
    FrontTold(c, r, skipReady);
  }

  lemma StopTells(c: Top, r: TopReplies, skipReady: bool, st: Status)
    requires r.db != DbOk && st == FirstStatus(c, r)
    ensures TableTold(c, r, skipReady, DbStage(st, r.db).st)
  {
    FirstIsBlank(c, r);
    DbKeeps(st, r.db);
    FrontTold(c, r, skipReady);
    NothingMore(c, r, skipReady);
  }

  lemma NothingMore(c: Top, r: TopReplies, skipReady: bool)
    requires r.db != DbOk
    ensures forall t | Place(t) >= 1 :: Told(c, r, skipReady, t) == Unknown
  {}

  lemma ExitIsTold(c: Top, r: TopReplies)
    ensures ExitTold(c, r, FullExit(c, r))
  {}

  lemma SentIsTold(c: Top, r: TopReplies, o: TopOutcome)
    requires o.sent == SyncedSent(c, r, Takes(c, r)) && o.st.hash == SyncedHash(c, r, c.st.hash) && o.own == c.own
    requires o.st.observed == c.gen && o.st.ready == c.st.ready
    ensures WritesTold(c, r, o)
  {}

  /** The report of a working Watcher pass, for all replies: every condition's state, the exit, the record
      and the writes. */
  lemma TopPassReports(c: Top, r: TopReplies, skipReady: bool)
    requires Working(c, r)
    ensures var o := Pass(c, r, skipReady);
      && (forall t | t != Ready :: Get(o.st.conds, t) == Told(c, r, skipReady, t))
      && ExitTold(c, r, o.exit) && WritesTold(c, r, o)
  {
    DbTells(c, r, skipReady);
    ExitIsTold(c, r);
    var o := Body(c, r, skipReady);
    assert o == FromDb(c, r, FirstStatus(c, r), skipReady);
    SentIsTold(c, r, o);
    DeferredTold(c, r, skipReady, o);
  }

  lemma DeferredTold(c: Top, r: TopReplies, skipReady: bool, o: TopOutcome)
    requires TableTold(c, r, skipReady, o.st) && WritesTold(c, r, o)
    ensures TableTold(c, r, skipReady, Deferred(o.st, skipReady))
    ensures WritesTold(c, r, o.(st := Deferred(o.st, skipReady)))
  {}

  // Ready

  predicate Open(st: Status) {
    Ready in st.conds && st.conds[Ready] == Unknown
  }

  lemma ApplierIsFair(c: Top, r: TopReplies, st: Status, sent: TopSent, skipReady: bool)
    requires Open(st)
    ensures SR.Fair(FromApplier(c, r, st, sent, skipReady).st)
  {
    assert Open(Ensuring(c, r, Applier, st, skipReady).st);
  }

  lemma EngineIsFair(c: Top, r: TopReplies, st: Status, sent: TopSent, skipReady: bool)
    requires Open(st)
    ensures SR.Fair(FromEngine(c, r, st, sent, skipReady).st)
  {
    var f := Ensuring(c, r, Engine, st, skipReady);
    assert Open(f.st);
    ApplierIsFair(c, r, f.st, AndChild(sent, Engine, c), skipReady);
  }

  lemma ApiIsFair(c: Top, r: TopReplies, st: Status, sent: TopSent, skipReady: bool)
    requires Open(st)
    ensures SR.Fair(FromApi(c, r, st, sent, skipReady).st)
  {
    var f := Ensuring(c, r, Api, st, skipReady);
    var g := ExposeRoutesStage(f.st, r.routes);
    assert Open(f.st);
    assert Open(g.st);
    EngineIsFair(c, r, g.st, AndChild(sent, Api, c), skipReady);
  }

  lemma KeystoneIsFair(c: Top, r: TopReplies, st: Status, sent: TopSent, skipReady: bool)
    requires Open(st)
    ensures SR.Fair(FromKeystone(c, r, st, sent, skipReady).st)
  {
    var g := TopConfigStage(KeystoneStage(st, r.keystone).st, r.configOk);
    var i := CronStage(DbSyncStage(g.st, JobHash(c.spec), r.job).st, r.cronOk);
    assert Open(i.st);
    ApiIsFair(c, r, i.st, sent, skipReady);
  }

  lemma TopBodyIsFair(c: Top, r: TopReplies, skipReady: bool)
    ensures SR.Fair(Body(c, r, skipReady).st)
  {
    var st := FirstStatus(c, r);
    assert Open(st);
    if Working(c, r) && InputsDone(c, r) {
      var next := Put(MqStage(DbStage(st, r.db).st, r.mq).st, InputReady, True);
      assert Body(c, r, skipReady) == FromKeystone(c, r, next, QUIET.(prom := !r.promOwn), skipReady);
      KeystoneIsFair(c, r, next, QUIET.(prom := !r.promOwn), skipReady);
    }
  }

  /** In the persisted table Ready blames the worst of the other conditions. */
  lemma TopReadyBlames(c: Top, r: TopReplies, skipReady: bool)
    ensures SR.Blames(Pass(c, r, skipReady).st.conds)
  {
    TopBodyIsFair(c, r, skipReady);
    SR.FairBlames(Body(c, r, skipReady).st, skipReady);
  }

  // The opening

  /** Nothing is written unless the Watcher is registered, initialised and not under deletion. A failure of
      the rbac helper comes first and is an error; then a pass that is not that far registers the Watcher, or
      does nothing but initialise its conditions. */
  lemma TopOnlyRegistered(c: Top, r: TopReplies, skipReady: bool)
    ensures var o := Pass(c, r, skipReady);
      && (o.sent != QUIET ==> r.rbacOk && c.own && !c.deleting && c.st.conds != map[])
      && (!r.rbacOk ==> o.own == c.own && o.exit == Exit(0, true))
      && (r.rbacOk && !c.own && !c.deleting ==> o.own && o.exit == Exit(0, false))
      && (r.rbacOk && (c.own || c.deleting) && c.st.conds == map[] ==> o.own == c.own && o.exit == Exit(0, false))
      && (!Working(c, r) ==> o.st.hash == c.st.hash)
    ensures Working(c, r) <==> r.rbacOk && c.own && !c.deleting && c.st.conds != map[]
  {}

  // What the inputs need

  /** The main secret needs its password, the transport URL's secret its URL, the Prometheus secret host and
      port. */
  lemma TopInputsNeed(c: Top, r: TopReplies)
    ensures MainRead(c, r).Got? <==> r.main.SecretIs? && c.spec.passwordSelector in r.main.data
    ensures UrlRead(r).Got? <==> r.url.SecretIs? && "transport_url" in r.url.data
    ensures PromRead(r).Got? <==> r.prom.SecretIs? && "host" in r.prom.data && "port" in r.prom.data
    ensures (MainRead(c, r).Missing? <==> r.main == SecretMissing) && (UrlRead(r).Missing? <==> r.url == SecretMissing)
  {
    assert PROM_FIELDS[0] == "host" && PROM_FIELDS[1] == "port";
    assert [TRANSPORT_URL][0] == "transport_url" && [c.spec.passwordSelector][0] == c.spec.passwordSelector;
  }
}
