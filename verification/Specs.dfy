/** What an edit of the Watcher reaches: the spec each child is sent, and the StatefulSet that comes of
    it, field by field. */
module Specs {
  import opened Base
  import opened Conditions
  import opened Resources
  import opened Stages
  import opened World
  import opened Invariants
  import S = SubPass
  import T = TopPass
  import ST = SubTheorems
  import TT = TopTheorems
  import Th = Theorems

  // From the Watcher to its children

  function Selected(own: Option<Selector>, parent: Option<Selector>): Option<Selector> {
    if own.Some? then own else parent
  }

  lemma SentIsDerived(c: T.Top, r: T.TopReplies, skipReady: bool, k: Kind, s: SubSpec)
    requires (k, s) in T.Pass(c, r, skipReady).sent.children
    ensures k != Watcher && s == Derive(k, c.spec)
  {
    TT.ChildrenOnlyAfterSchema(c, r, skipReady);
    assert (k, s) in TT.InOrder(c);
  }

  /** Whatever a pass sends to a child carries that child's own image, replicas, custom config and
      resources; the Watcher's node selector where its template has none; the secret that the Watcher
      writes under its own name. Endpoint certificates and overrides go to the API alone, the Prometheus
      secret to all but the applier. */
  lemma SentSpecs(c: T.Top, r: T.TopReplies, skipReady: bool, k: Kind, s: SubSpec)
    requires (k, s) in T.Pass(c, r, skipReady).sent.children
    ensures var w := c.spec;
      && s.secret == w.name && s.serviceUser == w.serviceUser && s.passwordSelector == w.passwordSelector
      && s.memcachedInstance == w.memcachedInstance && s.preserveJobs == w.preserveJobs
      && s.serviceAccount == "watcher-" + w.name
      && s.prometheusSecret == (if k == Applier then "" else w.prometheusSecret)
    ensures var w := c.spec;
      && (k == Api ==>
            && s.image == w.apiImage && s.replicas == w.api.replicas && s.customConfig == w.api.customConfig
            && s.resources == w.api.resources && s.nodeSelector == Selected(w.api.nodeSelector, w.nodeSelector))
      && (k == Engine ==>
            && s.image == w.engineImage && s.replicas == w.engine.replicas && s.customConfig == w.engine.customConfig
            && s.resources == w.engine.resources && s.nodeSelector == Selected(w.engine.nodeSelector, w.nodeSelector))
      && (k == Applier ==>
            && s.image == w.applierImage && s.replicas == w.applier.replicas && s.customConfig == w.applier.customConfig
            && s.resources == w.applier.resources && s.nodeSelector == Selected(w.applier.nodeSelector, w.nodeSelector))
    ensures if k == Api then s.tls == c.spec.tls && s.overrides == c.spec.overrides
            else s.tls == Tls(c.spec.tls.ca, None, None) && s.overrides == map[]
  {
    SentIsDerived(c, r, skipReady, k, s);
  }

  /** The template makes a difference to its child, next to the Watcher's own node selector. */
  predicate Shows(a: Template, b: Template, parent: Option<Selector>) {
    || a.replicas != b.replicas || a.customConfig != b.customConfig || a.resources != b.resources
    || Selected(a.nodeSelector, parent) != Selected(b.nodeSelector, parent)
  }

  /** An edit of one child's template or image reaches that child, if it shows at all, and no other. */
  lemma EditReachesOne(c: T.Top, d: T.Top, r: T.TopReplies, q: T.TopReplies, skipReady: bool, k: Kind, s: SubSpec, t: SubSpec)
    requires (k, s) in T.Pass(c, r, skipReady).sent.children && (k, t) in T.Pass(d, q, skipReady).sent.children
    ensures d.spec == c.spec.(api := d.spec.api, apiImage := d.spec.apiImage) ==>
      (s != t <==>
         && k == Api
         && (d.spec.apiImage != c.spec.apiImage || Shows(c.spec.api, d.spec.api, c.spec.nodeSelector)))
    ensures d.spec == c.spec.(engine := d.spec.engine, engineImage := d.spec.engineImage) ==>
      (s != t <==>
         && k == Engine
         && (d.spec.engineImage != c.spec.engineImage || Shows(c.spec.engine, d.spec.engine, c.spec.nodeSelector)))
    ensures d.spec == c.spec.(applier := d.spec.applier, applierImage := d.spec.applierImage) ==>
      (s != t <==>
         && k == Applier
         && (d.spec.applierImage != c.spec.applierImage || Shows(c.spec.applier, d.spec.applier, c.spec.nodeSelector)))
  {
    SentIsDerived(c, r, skipReady, k, s);
    SentIsDerived(d, q, skipReady, k, t);
  }

  /** An edit of the Watcher's node selector reaches exactly the children whose templates have none. */
  lemma SelectorReaches(c: T.Top, d: T.Top, r: T.TopReplies, q: T.TopReplies, skipReady: bool, k: Kind, s: SubSpec, t: SubSpec)
    requires (k, s) in T.Pass(c, r, skipReady).sent.children && (k, t) in T.Pass(d, q, skipReady).sent.children
    requires d.spec == c.spec.(nodeSelector := d.spec.nodeSelector) && d.spec.nodeSelector != c.spec.nodeSelector
    ensures s != t <==>
      || (k == Api && c.spec.api.nodeSelector.None?) || (k == Engine && c.spec.engine.nodeSelector.None?)
      || (k == Applier && c.spec.applier.nodeSelector.None?)
  {
    SentIsDerived(c, r, skipReady, k, s);
    SentIsDerived(d, q, skipReady, k, t);
  }

  // From a child to its StatefulSet

  /** What a pass patches its StatefulSet with: every field of the spec it read that the StatefulSet
      takes over, the hash on record, and, unless it is an applier, the CA certificate that the Prometheus
      secret names. */
  lemma SentWork(c: S.Sub, r: S.Replies, timeout: Delay, skipReady: bool)
    requires S.Fits(c, r) && S.Pass(c, r, timeout, skipReady).sent.work.Some?
    ensures var work := S.Pass(c, r, timeout, skipReady).sent.work.value;
      && work.replicas == c.spec.replicas && work.image == c.spec.image && work.resources == c.spec.resources
      && work.serviceAccount == c.spec.serviceAccount && work.nodeSelector == c.spec.nodeSelector && work.tls == c.spec.tls
      && Some(work.configHash) == c.st.hash
      && (c.kind == Applier ==> work.ca == None)
      && (c.kind != Applier ==>
            && r.prom.SecretIs?
            && var data := r.prom.data;
              && (work.ca.Some? <==> "ca_secret" in data && data["ca_secret"] != "" && "ca_key" in data && data["ca_key"] != "")
              && (work.ca.Some? ==> work.ca == Some(CaCert(data["ca_secret"], data["ca_key"]))))
  {
    ST.DeploysOnlyRecorded(c, r, timeout, skipReady);
  }

  predicate SameFields(a: Workload, b: Workload) {
    && a.replicas == b.replicas && a.image == b.image && a.resources == b.resources
    && a.serviceAccount == b.serviceAccount && a.nodeSelector == b.nodeSelector && a.tls == b.tls
    && a.ca == b.ca && a.configHash == b.configHash
  }

  /** Two patches of one StatefulSet, which its controller may have moved in between: the second one
      opens a new generation exactly when the specs differ in something the StatefulSet takes over, or
      the CA or the recorded hash does; so an edit is rolled out before Ready can be True again. */
  lemma PatchOpensIff(c: S.Sub, r: S.Replies, d: S.Sub, q: S.Replies, timeout: Delay, skipReady: bool,
                      before: Option<Sts>, between: Sts)
    requires S.Fits(c, r) && S.Fits(d, q)
    requires S.Pass(c, r, timeout, skipReady).sent.work.Some? && S.Pass(d, q, timeout, skipReady).sent.work.Some?
    requires var first := Patch(before, S.Pass(c, r, timeout, skipReady).sent.work.value);
      between.gen == first.gen && between.work == first.work
    ensures var work, later := S.Pass(c, r, timeout, skipReady).sent.work.value, S.Pass(d, q, timeout, skipReady).sent.work.value;
      var second := Patch(Some(between), later);
      && SameFields(second.work, later)
      && (second.gen == between.gen <==>
            && d.spec.replicas == c.spec.replicas && d.spec.image == c.spec.image && d.spec.resources == c.spec.resources
            && d.spec.serviceAccount == c.spec.serviceAccount && d.spec.nodeSelector == c.spec.nodeSelector
            && d.spec.tls == c.spec.tls && d.st.hash == c.st.hash && later.ca == work.ca)
      && (second.gen != between.gen ==> second.gen == between.gen + 1)
  {
    SentWork(c, r, timeout, skipReady);
    SentWork(d, q, timeout, skipReady);
  }

  // From the Watcher to the pods

  /** A StatefulSet that has been rolled out. */
  predicate RolledOut(o: Sts, image: string, t: Template, parent: Option<Selector>) {
    && o.work.image == image && o.work.resources == t.resources && o.work.nodeSelector == Selected(t.nodeSelector, parent)
    && o.observed == o.gen && o.ready == o.work.replicas == t.replicas
  }

  /** Behind a Watcher that reports Ready for its current generation there are three StatefulSets, each
      patched, observed and fully ready with its own image, resources, replicas and node selector, as the
      Watcher's spec now gives them; the API's has the endpoint certificates, all have the CA bundle. */
  lemma ReadyRollsOut(ls: seq<Label>)
    ensures var w := Th.After(ls);
      Watcher in w.cr && Is(w.cr[Watcher].status.conds, Ready) && w.cr[Watcher].status.observed == w.cr[Watcher].gen ==>
        var c := w.cr[Watcher];
        && c.spec.Parent? && c.trace.TopTrace? && {Api, Engine, Applier} <= c.trace.seen.Keys
        && var spec, seen := c.spec.w, c.trace.seen;
          && RolledOut(seen[Api].sts, spec.apiImage, spec.api, spec.nodeSelector)
          && RolledOut(seen[Engine].sts, spec.engineImage, spec.engine, spec.nodeSelector)
          && RolledOut(seen[Applier].sts, spec.applierImage, spec.applier, spec.nodeSelector)
          && seen[Api].sts.work.tls == spec.tls
          && seen[Engine].sts.work.tls == seen[Applier].sts.work.tls == Tls(spec.tls.ca, None, None)
  {
    Th.ReadyMeansDeployed(ls);
    var w := Th.After(ls);
    if Watcher in w.cr && Is(w.cr[Watcher].status.conds, Ready) && w.cr[Watcher].status.observed == w.cr[Watcher].gen {
      var t := w.cr[Watcher].trace;
      assert Saw1(Api, t) && Saw1(Engine, t) && Saw1(Applier, t);
    }
  }
}
