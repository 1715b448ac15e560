/** The Watcher's reconciler, step by step, as its methods update the instance. */
module TopController {
  import opened Base
  import opened Conditions
  import opened Resources
  import opened Stages
  import opened Secrets
  import opened TopPass

  class TopClient {
    var sent: TopSent

    constructor ()
      ensures sent == QUIET
    {
      sent := QUIET;
    }
  }

  class WatcherReconciler {
    const client: TopClient
    const timeout: Delay

    constructor (client: TopClient, timeout: Delay)
      ensures this.client == client && this.timeout == timeout
    {
      this.client, this.timeout := client, timeout;
    }

    method InitStatus(instance: Instance, r: TopReplies)
      requires instance.kind == Watcher
      modifies instance`conds, instance`observed
      ensures instance.State() == RbacStage(Begin(Watcher, instance.gen, old(instance.State())), r.rbac)
      ensures forall t :: t in instance.conds <==> Listed(Watcher, t)
      ensures forall t | t in instance.conds && t !in {ServiceAccountReady, RoleReady, RoleBindingReady} ::
                instance.conds[t] == Unknown
      ensures instance.conds[ServiceAccountReady] == r.rbac.account && instance.conds[RoleReady] == r.rbac.role
      ensures instance.conds[RoleBindingReady] == r.rbac.binding && instance.observed == instance.gen
    {
      instance.conds := InitFor(Watcher);
      instance.observed := instance.gen;
      instance.Set(ServiceAccountReady, r.rbac.account);
      instance.Set(RoleReady, r.rbac.role);
      instance.Set(RoleBindingReady, r.rbac.binding);
    }

    method EnsureDB(instance: Instance, d: DbReply) returns (stop: bool, exit: Exit)
      modifies instance`conds
      ensures var f := DbStage(old(instance.State()), d);
        instance.State() == f.st && stop == f.Halt? && (stop ==> exit == f.exit)
      ensures stop <==> !d.DbOk?
      ensures Is(instance.conds, DBAccountReady) <==> !d.DbAccountFailed?
      ensures !d.DbAccountFailed? ==> (Is(instance.conds, DBReady) <==> d.DbOk?)
      ensures stop ==> (exit.failed <==> !d.DbWait?) && (exit.requeueAfter > 0 <==> d.DbWait?)
      ensures instance.conds - {DBAccountReady, DBReady} == old(instance.conds) - {DBAccountReady, DBReady}
    {
      if d.DbAccountFailed? {
        instance.Set(DBAccountReady, False(Warning));
        return true, Exit(0, true);
      }
      instance.Set(DBAccountReady, True);
      if d.DbFailed? {
        instance.Set(DBReady, False(Warning));
        return true, Exit(0, true);
      } else if d.DbWait? {
        instance.Set(DBReady, False(Info));
        return true, Exit(d.after, false);
      }
      instance.Set(DBReady, True);
      return false, Exit(0, false);
    }

    /** The running state is reported as a warning, with a requeue of its own. */
    method EnsureMQ(instance: Instance, m: MqReply) returns (stop: bool, exit: Exit)
      modifies instance`conds
      ensures var f := MqStage(old(instance.State()), m);
        instance.State() == f.st && stop == f.Halt? && (stop ==> exit == f.exit)
      ensures stop <==> !m.MqOk?
      ensures Is(instance.conds, TransportURLReady) <==> m.MqOk?
      ensures stop ==> exit == Exit(if m.MqWait? then 10 else 0, m.MqFailed?)
      ensures instance.conds - {TransportURLReady} == old(instance.conds) - {TransportURLReady}
    {
      if m.MqFailed? {
        instance.Set(TransportURLReady, False(Warning));
        return true, Exit(0, true);
      }
      if m.MqWait? {
        instance.Set(TransportURLReady, False(Warning));
        return true, Exit(10, false);
      }
      instance.Set(TransportURLReady, True);
      return false, Exit(0, false);
    }

    /** Any unusable secret is an error here, also one that is just missing. */
    method ReadInputs(instance: Instance, c: Top, r: TopReplies) returns (failed: bool)
      modifies instance`conds
      ensures var f := TopInputStage(old(instance.State()), MainRead(c, r), UrlRead(r), PromRead(r));
        instance.State() == f.st && failed == f.Halt? && (failed ==> f.exit == Exit(0, true))
    {
      var hash, after, bad := EnsureSecret(instance, r.main, [c.spec.passwordSelector], timeout);
      if bad || hash.None? {
        return true;
      }
      hash, after, bad := EnsureSecret(instance, r.url, [TRANSPORT_URL], timeout);
      if bad || hash.None? {
        return true;
      }
      hash, after, bad := EnsureSecret(instance, r.prom, PROM_FIELDS, timeout);
      if bad || hash.None? {
        instance.Set(InputReady, False(Warning));
        return true;
      }
      return false;
    }

    method EnsureKeystoneService(instance: Instance, reply: ObjectReply) returns (failed: bool)
      modifies instance`conds
      ensures var f := KeystoneStage(old(instance.State()), reply);
        instance.State() == f.st && failed == f.Halt?
      ensures failed <==> reply.ObjectFailed?
      ensures reply.ObjectIs? && reply.mirrored.Some? ==> Get(instance.conds, KeystoneServiceReady) == reply.mirrored.value
      ensures reply.ObjectIs? && reply.mirrored.None? ==> instance.conds == old(instance.conds)
      ensures instance.conds - {KeystoneServiceReady} == old(instance.conds) - {KeystoneServiceReady}
    {
      if reply.ObjectFailed? {
        instance.Set(KeystoneServiceReady, False(Error));
        return true;
      }
      if reply.mirrored.Some? {
        instance.Set(KeystoneServiceReady, reply.mirrored.value);
      }
      return false;
    }

    method EnsureDBSync(instance: Instance, c: Top, j: JobReply) returns (stop: bool, exit: Exit)
      modifies instance`conds, instance`hash
      ensures var f := DbSyncStage(old(instance.State()), JobHash(c.spec), j);
        instance.State() == f.st && stop == f.Halt? && (stop ==> exit == f.exit)
      ensures stop <==> !j.JobDone?
      ensures Is(instance.conds, DBSyncReady) <==> j.JobDone?
      ensures instance.hash == if j.JobDone? then Some(JobHash(c.spec)) else old(instance.hash)
      ensures j.JobDone? ==> forall w: WatcherSpec :: instance.hash == Some(JobHash(w)) <==>
                w.name == c.spec.name && w.apiImage == c.spec.apiImage && w.tls.ca == c.spec.tls.ca
      ensures stop ==> (exit.failed <==> j.JobFailed?)
      ensures instance.conds - {DBSyncReady} == old(instance.conds) - {DBSyncReady}
    {
      if j.JobRunning? {
        instance.Set(DBSyncReady, False(Info));
        return true, Exit(j.after, false);
      }
      if j.JobFailed? {
        instance.Set(DBSyncReady, False(Warning));
        return true, Exit(0, true);
      }
      if instance.hash != Some(JobHash(c.spec)) {
        instance.hash := Some(JobHash(c.spec));
      }
      instance.Set(DBSyncReady, True);
      forall w: WatcherSpec
        ensures JobHash(w) == JobHash(c.spec) <==>
          w.name == c.spec.name && w.apiImage == c.spec.apiImage && w.tls.ca == c.spec.tls.ca
      {
        JobHashTells(w, c.spec);
      }
      return false, Exit(0, false);
    }

    method BuildSpec(w: WatcherSpec, k: Kind) returns (spec: SubSpec)
      requires k != Watcher
      ensures spec == Derive(k, w)
      ensures k == Api ==>
                && spec.image == w.apiImage && spec.replicas == w.api.replicas
                && spec.tls == w.tls && spec.overrides == w.overrides
      ensures k == Engine ==> spec.image == w.engineImage && spec.replicas == w.engine.replicas
      ensures k == Applier ==> spec.image == w.applierImage && spec.replicas == w.applier.replicas && spec.prometheusSecret == ""
      ensures k != Api ==> spec.tls == Tls(w.tls.ca, None, None) && spec.overrides == map[]
      ensures k != Applier ==> spec.prometheusSecret == w.prometheusSecret
    {
      var template := if k == Engine then w.engine else if k == Applier then w.applier else w.api;
      var image := if k == Engine then w.engineImage else if k == Applier then w.applierImage else w.apiImage;
      spec := SubSpec(
        w.name, w.serviceUser, w.passwordSelector, w.memcachedInstance, "", w.preserveJobs,
        template.nodeSelector, template.customConfig, image, template.resources,
        "watcher-" + w.name, template.replicas, Tls(w.tls.ca, None, None), map[]);
      if k == Api {
        spec := spec.(tls := w.tls, overrides := w.overrides);
      }
      if spec.nodeSelector.None? {
        spec := spec.(nodeSelector := w.nodeSelector);
      }
      if k != Applier {
        spec := spec.(prometheusSecret := w.prometheusSecret);
      }
    }

    /** Patches the child, and copies the state of one that is up to date. */
    method EnsureChild(instance: Instance, c: Top, r: TopReplies, k: Kind, skipReady: bool) returns (failed: bool)
      requires k != Watcher
      modifies instance`conds, client`sent
      ensures var f := Ensuring(c, r, k, old(instance.State()), skipReady);
        && instance.State() == f.st && failed == f.Halt? && (failed ==> f.exit == Exit(0, true))
        && client.sent == AndChild(old(client.sent), k, c)
    {
      var spec := BuildSpec(c.spec, k);
      client.sent := client.sent.(children := client.sent.children + [(k, spec)]);
      var reply := r.child(k, spec);
      if reply.ChildFailed? {
        instance.Set(ReadyTypeOf(k), False(Error));
        return true;
      }
      if reply.gen == reply.status.observed {
        var m := Mirror(reply.status.conds, skipReady);
        if m.Some? {
          instance.Set(ReadyTypeOf(k), m.value);
        }
      }
      return false;
    }

    method ReconcileDelete(instance: Instance, r: TopReplies) returns (exit: Exit)
      modifies instance`own
      ensures instance.own == (old(instance.own) && !TopReleased(r))
      ensures exit == Exit(0, !TopReleased(r))
      ensures exit.failed <==>
        !r.dropDbOk || r.releaseService.NotReadable? || r.releaseService.UpdateFailed? || r.releaseSecret.UpdateFailed?
    {
      if !r.dropDbOk {
        return Exit(0, true);
      }
      if r.releaseService.NotReadable? || r.releaseService.UpdateFailed? {
        return Exit(0, true);
      }
      if !r.releaseSecret.NotReadable? {
        if r.releaseSecret.UpdateFailed? {
          return Exit(0, true);
        }
      }
      instance.own := false;
      return Exit(0, false);
    }

    /** From the decision engine on. */
    method FinishChildren(instance: Instance, c: Top, r: TopReplies, skipReady: bool) returns (exit: Exit)
      modifies instance`conds, client`sent
      ensures var o := FromEngine(c, r, old(instance.State()), old(client.sent), skipReady);
        instance.State() == o.st && client.sent == o.sent && exit == o.exit
    {
      var failed := EnsureChild(instance, c, r, Engine, skipReady);
      if failed {
        return Exit(0, true);
      }
      failed := EnsureChild(instance, c, r, Applier, skipReady);
      if failed {
        return Exit(0, true);
      }
      if !r.cleanupOk {
        return Exit(0, true);
      }
      if AllSubTrue(instance.conds) {
        instance.Set(Ready, True);
      }
      return Exit(0, false);
    }

    method ExposeApi(instance: Instance, c: Top, r: TopReplies, skipReady: bool) returns (exit: Exit)
      modifies instance`conds, client`sent
      ensures var o := FromApi(c, r, old(instance.State()), old(client.sent), skipReady);
        instance.State() == o.st && client.sent == o.sent && exit == o.exit
    {
      var failed := EnsureChild(instance, c, r, Api, skipReady);
      if failed {
        return Exit(0, true);
      }
      if r.routes.RoutesFailed? {
        instance.Set(ExposeServiceReady, False(Warning));
        return Exit(0, true);
      } else if r.routes.RoutesWait? {
        instance.Set(ExposeServiceReady, False(Info));
        return Exit(r.routes.after, false);
      }
      instance.Set(ExposeServiceReady, True);
      exit := FinishChildren(instance, c, r, skipReady);
    }

    method Provision(instance: Instance, c: Top, r: TopReplies, skipReady: bool) returns (exit: Exit)
      modifies instance`conds, instance`hash, client`sent
      ensures var o := FromKeystone(c, r, old(instance.State()), old(client.sent), skipReady);
        instance.State() == o.st && client.sent == o.sent && exit == o.exit
    {
      var failed := EnsureKeystoneService(instance, r.keystone);
      if failed {
        return Exit(0, true);
      }
      if !r.configOk {
        instance.Set(ServiceConfigReady, False(Warning));
        return Exit(0, true);
      }
      instance.Set(ServiceConfigReady, True);
      var stop;
      stop, exit := EnsureDBSync(instance, c, r.job);
      if stop {
        return exit;
      }
      if !r.cronOk {
        instance.Set(CronJobReady, False(Warning));
        return Exit(0, true);
      }
      instance.Set(CronJobReady, True);
      exit := ExposeApi(instance, c, r, skipReady);
    }

    /** A failure to write the sub-level secret is swallowed. */
    method Acquire(instance: Instance, c: Top, r: TopReplies, skipReady: bool) returns (exit: Exit)
      requires client.sent == QUIET
      modifies instance`conds, instance`hash, client`sent
      ensures var o := FromInputs(c, r, old(instance.State()), skipReady);
        instance.State() == o.st && client.sent == o.sent && exit == o.exit
    {
      var failed := ReadInputs(instance, c, r);
      if failed {
        return Exit(0, true);
      }
      if !r.promOwn {
        client.sent := client.sent.(prom := true);
        if !r.promUpdateOk {
          instance.Set(InputReady, False(Warning));
          return Exit(0, true);
        }
      }
      if !r.subSecretOk {
        return Exit(0, false);
      }
      instance.Set(InputReady, True);
      exit := Provision(instance, c, r, skipReady);
    }

    predicate Reads(instance: Instance, c: Top)
      reads instance
    {
      && instance.kind == Watcher && c.gen == instance.gen && c.deleting == instance.deleting
      && c.own == instance.own && c.st == instance.State()
    }

    method Work(instance: Instance, c: Top, r: TopReplies, skipReady: bool) returns (exit: Exit)
      requires client.sent == QUIET
      modifies instance`conds, instance`hash, client`sent
      ensures var o := FromDb(c, r, old(instance.State()), skipReady);
        instance.State() == o.st && client.sent == o.sent && exit == o.exit
    {
      var stop;
      stop, exit := EnsureDB(instance, r.db);
      if stop {
        return;
      }
      stop, exit := EnsureMQ(instance, r.mq);
      if stop {
        return;
      }
      exit := Acquire(instance, c, r, skipReady);
    }

    /** The opening of the reconcile, once the status is initialised. */
    method Gate(instance: Instance, c: Top, r: TopReplies, isNew: bool, skipReady: bool) returns (exit: Exit)
      requires c.deleting == instance.deleting && c.own == instance.own && isNew == (c.st.conds == map[])
      requires instance.State() == RbacStage(Begin(Watcher, c.gen, c.st), r.rbac) && client.sent == QUIET
      modifies instance, client
      ensures Body(c, r, skipReady) == TopOutcome(instance.State(), exit, instance.own, client.sent)
    {
      if !r.rbacOk {
        return Exit(0, true);
      }
      if !instance.deleting && !instance.own {
        instance.own := true;
        return Exit(0, false);
      }
      if isNew {
        return Exit(0, false);
      }
      if instance.deleting {
        exit := ReconcileDelete(instance, r);
        return;
      }
      exit := Work(instance, c, r, skipReady);
    }

    method Run(instance: Instance, c: Top, r: TopReplies, skipReady: bool) returns (exit: Exit)
      requires Reads(instance, c) && client.sent == QUIET
      modifies instance, client
      ensures Body(c, r, skipReady) == TopOutcome(instance.State(), exit, instance.own, client.sent)
    {
      var isNew := instance.conds == map[];
      InitStatus(instance, r);
      exit := Gate(instance, c, r, isNew, skipReady);
    }

    method Reconcile(instance: Instance, c: Top, r: TopReplies, skipReady: bool) returns (exit: Exit)
      requires Reads(instance, c) && client.sent == QUIET
      modifies instance, client
      ensures Pass(c, r, skipReady) == TopOutcome(instance.State(), exit, instance.own, client.sent)
    {
      exit := Run(instance, c, r, skipReady);
      if Get(instance.conds, Ready) == Unknown {
        var m := Mirror(instance.conds, skipReady);
        if m.Some? {
          instance.Set(Ready, m.value);
        }
      }
    }
  }
}
