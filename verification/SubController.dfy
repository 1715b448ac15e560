/** The child reconcilers, step by step, as their methods update the instance. */
module SubController {
  import opened Base
  import opened Conditions
  import opened Resources
  import opened Stages
  import opened Secrets
  import opened Endpoints
  import opened SubPass

  /** The API server, as far as a pass writes to it. */
  class Client {
    var sent: Sent

    constructor ()
      ensures sent == NOTHING
    {
      sent := NOTHING;
    }
  }

  /** The deployment stage goes on exactly when it leaves DeploymentReady True, and when it does not,
      the final stage would change nothing. */
  lemma DeployOutcome(k: Kind, st: Status, replicas: nat, r: StsReply)
    ensures var f := DeployStage(k, st, replicas, r);
      && (f.Go? <==> Get(f.st.conds, DeploymentReady) == True)
      && (f.Halt? ==> FinalStage(f.st).st == f.st)
  {}

  class SubReconciler {
    const client: Client
    const timeout: Delay

    constructor (client: Client, timeout: Delay)
      ensures this.client == client && this.timeout == timeout
    {
      this.client, this.timeout := client, timeout;
    }

    method InitStatus(instance: Instance)
      modifies instance`conds, instance`observed
      ensures instance.State() == Begin(instance.kind, instance.gen, old(instance.State()))
      ensures forall t :: t in instance.conds <==> Listed(instance.kind, t)
      ensures forall t | t in instance.conds :: instance.conds[t] == Unknown
      ensures instance.observed == instance.gen
    {
      instance.conds := InitFor(instance.kind);
      instance.observed := instance.gen;
    }

    method EnsureMemcached(instance: Instance, m: MemReply) returns (failed: bool)
      modifies instance`conds
      ensures instance.State() == MemStage(old(instance.State()), m).st
      ensures failed <==> !m.MemReady?
      ensures Is(instance.conds, MemcachedReady) <==> m.MemReady?
      ensures Get(instance.conds, MemcachedReady) == False(Warning) <==> m.MemError?
      ensures instance.conds - {MemcachedReady} == old(instance.conds) - {MemcachedReady}
    {
      if m.MemNotFound? {
        instance.Set(MemcachedReady, False(Info));
        return true;
      }
      if m.MemError? {
        instance.Set(MemcachedReady, False(Warning));
        return true;
      }
      if m.MemNotReady? {
        instance.Set(MemcachedReady, False(Info));
        return true;
      }
      instance.Set(MemcachedReady, True);
      return false;
    }

    /** Records a hash that differs from the recorded one. */
    method CreateHash(instance: Instance, vars: map<string, Digest>) returns (hash: Digest, changed: bool)
      modifies instance`hash
      ensures hash == OfEnv(vars) && changed == (old(instance.hash) != Some(hash))
      ensures instance.hash == Some(hash)
    {
      hash := OfEnv(vars);
      changed := instance.hash != Some(hash);
      if changed {
        instance.hash := Some(hash);
      }
    }

    /** The engine and the applier take a NotFound from the patch for progress, the API for an error;
        only the API's caller looks at the result. */
    method EnsureDeployment(instance: Instance, c: Sub, ca: Option<CaCert>, hash: Digest, r: Replies)
      returns (exit: Exit)
      requires c.kind == instance.kind && c.kind != Watcher
      modifies instance`conds, instance`ready, client`sent
      ensures var work := WorkloadOf(c.spec, ca, hash);
        var f := DeployStage(c.kind, old(instance.State()), c.spec.replicas, r.deploy(work));
        && instance.State() == f.st
        && client.sent == old(client.sent).(work := Some(work))
        && (f.Halt? && c.kind == Api ==> exit == f.exit)
        && (f.Halt? && c.kind != Api ==> exit.failed == f.exit.failed && (exit.failed ==> exit == f.exit))
        && (f.Go? ==> exit == Exit(0, false))
      ensures client.sent.work.Some?
        && var work := client.sent.work.value;
          && work.replicas == c.spec.replicas && work.image == c.spec.image && work.resources == c.spec.resources
          && work.serviceAccount == c.spec.serviceAccount && work.nodeSelector == c.spec.nodeSelector
          && work.tls == c.spec.tls && work.ca == ca && work.configHash == hash
    {
      var work := Workload(c.spec.replicas, c.spec.image, c.spec.resources, c.spec.serviceAccount,
                           c.spec.nodeSelector, c.spec.tls, ca, hash);
      client.sent := client.sent.(work := Some(work));
      var reply := r.deploy(work);
      var notFound := reply.StsNotFound? && c.kind != Api;
      if (reply.StsFailed? || reply.StsNotFound?) && !notFound {
        instance.Set(DeploymentReady, False(Warning));
        return Exit(0, true);
      } else if reply.StsRequeue? || notFound {
        instance.Set(DeploymentReady, False(Info));
        return Exit(if reply.StsRequeue? then reply.after else 0, false);
      }
      var sts := reply.obj;
      if sts.gen == sts.observed {
        instance.ready := sts.ready;
      }
      if instance.ready == c.spec.replicas && sts.gen == sts.observed {
        instance.Set(DeploymentReady, True);
      } else {
        instance.Set(DeploymentReady, False(Info));
      }
      return Exit(0, false);
    }

    /** A requeue comes back together with the mirrored state. */
    method EnsureKeystoneEndpoint(instance: Instance, urls: map<Endpoint, string>, r: Replies) returns (exit: Exit)
      modifies instance`conds, client`sent
      ensures var f := EndpointStage(old(instance.State()), r.publish(urls));
        && instance.State() == f.st
        && client.sent == old(client.sent).(published := Some(urls))
        && exit == if f.Halt? then f.exit else Exit(0, false)
    {
      client.sent := client.sent.(published := Some(urls));
      var reply := r.publish(urls);
      if reply.ObjectFailed? {
        return Exit(0, true);
      }
      if reply.mirrored.Some? {
        instance.Set(KeystoneEndpointReady, reply.mirrored.value);
      }
      return Exit(reply.requeue, false);
    }

    method ReconcileDelete(instance: Instance, r: Replies) returns (exit: Exit)
      modifies instance`own
      ensures instance.own == (old(instance.own) && !Released(instance.kind, r))
      ensures exit == DeleteExit(instance.kind, r)
      ensures old(instance.own) ==> (!instance.own <==>
        && (instance.kind == Api ==> r.releaseEndpoint != NotReadable && r.releaseEndpoint != UpdateFailed)
        && r.releaseMem != NotReadable && r.releaseMem != UpdateMissing && r.releaseMem != UpdateFailed)
    {
      if instance.kind == Api {
        if r.releaseEndpoint.NotReadable? || r.releaseEndpoint.UpdateFailed? {
          return Exit(0, true);
        }
      }
      if r.releaseMem.NotReadable? {
        return Exit(0, false);
      }
      if r.releaseMem.UpdateMissing? || r.releaseMem.UpdateFailed? {
        return Exit(0, true);
      }
      instance.own := false;
      return Exit(0, false);
    }

    /** TLS input validation: the CA bundle first, then the endpoint certificates. */
    method ValidateTls(instance: Instance, c: Sub, r: Replies, vars: map<string, Digest>)
      returns (newVars: map<string, Digest>, stop: bool, exit: Exit)
      requires c.kind == Api
      modifies instance`conds
      ensures var f := TlsStage(Api, old(instance.State()), TlsReplyOf(c, r));
        instance.State() == f.st && stop == f.Halt? && (stop ==> exit == f.exit)
      ensures !stop ==> TlsReplyOf(c, r) == TlsOk && newVars == TlsVars(c, r, vars)
    {
      newVars := vars;
      if c.spec.tls.ca != "" {
        if r.ca.CertsMissing? {
          instance.Set(TLSInputReady, False(Info));
          return newVars, true, Exit(0, false);
        } else if r.ca.CertsBad? {
          instance.Set(TLSInputReady, False(Warning));
          return newVars, true, Exit(0, true);
        }
        if r.ca.hash.Some? {
          newVars := newVars[CA_BUNDLE_KEY := r.ca.hash.value];
        }
      }
      if r.certs.CertsMissing? {
        instance.Set(TLSInputReady, False(Info));
        return newVars, true, Exit(0, false);
      } else if r.certs.CertsBad? {
        instance.Set(TLSInputReady, False(Warning));
        return newVars, true, Exit(0, true);
      }
      newVars := newVars[TLS_HASH_NAME := if r.certs.hash.Some? then r.certs.hash.value else OfText("")];
      instance.Set(TLSInputReady, True);
      return newVars, false, Exit(0, false);
    }

    predicate Reads(instance: Instance, c: Sub)
      reads instance
    {
      && c.kind == instance.kind && c.gen == instance.gen && c.deleting == instance.deleting
      && c.own == instance.own && c.st == instance.State()
    }

    method ReadInputs(instance: Instance, c: Sub, r: Replies)
      returns (vars: map<string, Digest>, stop: bool, exit: Exit)
      requires c.kind != Watcher
      modifies instance`conds
      ensures var f := InputStage(c.kind, old(instance.State()), MainRead(c, r), PromRead(r), timeout);
        && instance.State() == f.st && stop == f.Halt? && (stop ==> exit == f.exit)
      ensures !stop ==> InputsRead(c, r) && vars == SecretVars(c, r)
    {
      vars := map[];
      var hash, after, failed := EnsureSecret(instance, r.main, MainFields(c.spec.passwordSelector), timeout);
      if failed || after != 0 {
        return vars, true, Exit(after, failed);
      }
      vars := vars[c.spec.secret := hash.value];
      if c.kind != Applier {
        var promHash, _, promFailed := EnsureSecret(instance, r.prom, PROM_FIELDS, timeout);
        if promFailed || promHash.None? {
          instance.Set(InputReady, False(Warning));
          return vars, true, Exit(0, true);
        }
        vars := vars[c.spec.prometheusSecret := promHash.value];
      }
      instance.Set(InputReady, True);
      return vars, false, Exit(0, false);
    }
  
    method Conclude(instance: Instance)
      modifies instance`conds
      ensures instance.State() == FinalStage(old(instance.State())).st
    {
      if AllSubTrue(instance.conds) {
        instance.Set(Ready, True);
      }
    }

    /** The API only: services, then the Keystone endpoint. */
    method Announce(instance: Instance, c: Sub, r: Replies) returns (exit: Exit)
      requires Fits(c, r)
      modifies instance`conds, client`sent
      ensures var o := FromExpose(c, r, old(instance.State()), old(client.sent));
        instance.State() == o.st && client.sent == o.sent && exit == o.exit
    {
      var urls, f := EnsureServiceExposed(instance, c.spec, r.order, r.ports, r.rule);
      if f.Halt? {
        return f.exit;
      }
      exit := EnsureKeystoneEndpoint(instance, urls, r);
      if exit != Exit(0, false) {
        return exit;
      }
      Conclude(instance);
    }

    /** Once the deployment is ready. */
    method Complete(instance: Instance, c: Sub, r: Replies) returns (exit: Exit)
      requires Fits(c, r) && c.kind == instance.kind
      modifies instance`conds, client`sent
      ensures var o := FromReady(c, r, old(instance.State()), old(client.sent));
        instance.State() == o.st && client.sent == o.sent && exit == o.exit
    {
      if c.kind == Api {
        exit := Announce(instance, c, r);
        return;
      }
      Conclude(instance);
      return Exit(0, false);
    }

    /** From the StatefulSet on. */
    method Deliver(instance: Instance, c: Sub, r: Replies, hash: Digest) returns (exit: Exit)
      requires Fits(c, r) && c.kind == instance.kind
      modifies instance`conds, instance`ready, client`sent
      ensures var o := FromDeploy(c, r, old(instance.State()), hash, old(client.sent));
        instance.State() == o.st && client.sent == o.sent && exit == o.exit
    {
      var ca := if c.kind != Applier && r.prom.SecretIs? then CaOf(r.prom.data) else None;
      exit := EnsureDeployment(instance, c, ca, hash, r);
      DeployOutcome(c.kind, old(instance.State()), c.spec.replicas, r.deploy(WorkloadOf(c.spec, ca, hash)));
      if exit.failed || (c.kind == Api && exit != Exit(0, false)) {
        return exit;
      }
      if Get(instance.conds, DeploymentReady) != True {
        if c.kind != Api {
          Conclude(instance);
        }
        return Exit(0, false);
      }
      exit := Complete(instance, c, r);
    }

    /** From Memcached on. */
    method Prepare(instance: Instance, c: Sub, r: Replies, vars0: map<string, Digest>) returns (exit: Exit)
      requires Fits(c, r) && c.kind == instance.kind && client.sent == NOTHING
      requires InputsRead(c, r) && vars0 == SecretVars(c, r)
      modifies instance`conds, instance`ready, instance`hash, client`sent
      ensures var o := FromMemcached(c, r, old(instance.State()));
        instance.State() == o.st && client.sent == o.sent && exit == o.exit
    {
      var vars := vars0;
      var failed := EnsureMemcached(instance, r.mem);
      if failed {
        return Exit(0, true);
      }
      if !r.memOwn {
        client.sent := client.sent.(mem := true);
        if !r.memUpdateOk {
          instance.Set(MemcachedReady, False(Warning));
          return Exit(0, true);
        }
      }
      exit := Configure(instance, c, r, vars);
    }

    /** From the rendered configuration on. */
    method Configure(instance: Instance, c: Sub, r: Replies, vars0: map<string, Digest>) returns (exit: Exit)
      requires Fits(c, r) && c.kind == instance.kind
      requires InputsRead(c, r) && vars0 == SecretVars(c, r)
      modifies instance`conds, instance`ready, instance`hash, client`sent
      ensures var o := FromConfig(c, r, old(instance.State()), old(client.sent));
        instance.State() == o.st && client.sent == o.sent && exit == o.exit
    {
      var vars := vars0;
      if r.config.NoKeystone? {
        instance.Set(ServiceConfigReady, False(Warning));
        return Exit(0, true);
      } else if r.config.ConfigFailed? {
        return Exit(0, true);
      }
      vars := vars[ConfigKey(c.name) := r.render];
      if c.kind == Api {
        var stop;
        vars, stop, exit := ValidateTls(instance, c, r, vars);
        if stop {
          return exit;
        }
      }
      var hash, changed := CreateHash(instance, vars);
      if changed {
        return Exit(0, false);
      }
      instance.Set(ServiceConfigReady, True);
      exit := Deliver(instance, c, r, hash);
    }

    /** The body of a reconcile, up to the deferred write. */
    method Run(instance: Instance, c: Sub, r: Replies) returns (exit: Exit)
      requires Fits(c, r) && Reads(instance, c) && client.sent == NOTHING
      modifies instance, client
      ensures Body(c, r, timeout) == Outcome(instance.State(), exit, instance.own, client.sent)
    {
      var isNew := instance.conds == map[];
      InitStatus(instance);
      if !instance.deleting && !instance.own {
        instance.own := true;
        return Exit(0, false);
      }
      if isNew {
        return Exit(0, false);
      }
      if instance.deleting {
        exit := ReconcileDelete(instance, r);
        return;
      }
      var vars, stop;
      vars, stop, exit := ReadInputs(instance, c, r);
      if stop {
        return;
      }
      exit := Prepare(instance, c, r, vars);
    }

    method Reconcile(instance: Instance, c: Sub, r: Replies, skipReady: bool) returns (exit: Exit)
      requires Fits(c, r) && Reads(instance, c) && client.sent == NOTHING
      modifies instance, client
      ensures Pass(c, r, timeout, skipReady) == Outcome(instance.State(), exit, instance.own, client.sent)
    {
      exit := Run(instance, c, r);
      if Get(instance.conds, Ready) == Unknown {
        var m := Mirror(instance.conds, skipReady);
        if m.Some? {
          instance.Set(Ready, m.value);
        }
      }
    }
  }
}
