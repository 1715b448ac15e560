/** Which changes wake which custom resources: the field indexes and the lookup behind the secret
    watch. */
module Watches {
  import opened Base
  import opened Conditions
  import opened Resources
  import opened Stages
  import opened Secrets
  import opened SubPass
  import E = Endpoints
  import ST = SubTheorems

  datatype Field = SecretField | PrometheusField | InternalField | PublicField | BundleField | RouteField

  datatype Item = Item(namespace: string, name: string, spec: Spec)

  datatype Request = Request(namespace: string, name: string)

  function WatchFields(k: Kind): seq<Field> {
    match k
    case Watcher => [SecretField, PrometheusField, RouteField]
    case Api => [SecretField, PrometheusField, InternalField, PublicField, BundleField]
    case _ => [SecretField, PrometheusField, BundleField]
  }

  function Given(s: string): set<string> {
    if s == "" then {} else {s}
  }

  /** An optional secret name is indexed as it is, also when it is empty. */
  function Pointed(s: Option<string>): set<string> {
    if s.None? then {} else {s.value}
  }

  /** The index extractors. */
  function Index(f: Field, spec: Spec): set<string> {
    match (spec, f)
    case (Parent(w), SecretField) => Given(w.secret)
    case (Parent(w), PrometheusField) => Given(w.prometheusSecret)
    case (Parent(w), RouteField) => if w.ingressSecret.None? then {} else Given(w.ingressSecret.value)
    case (Child(s), SecretField) => Given(s.secret)
    case (Child(s), PrometheusField) => Given(s.prometheusSecret)
    case (Child(s), InternalField) => Pointed(s.tls.internal)
    case (Child(s), PublicField) => Pointed(s.tls.public)
    case (Child(s), BundleField) => Given(s.tls.ca)
    case _ => {}
  }

  predicate Hit(it: Item, f: Field, name: string, namespace: string) {
    it.namespace == namespace && name in Index(f, it.spec)
  }

  /** A request for q is due to one of the first n fields. */
  ghost predicate DueTo(items: seq<Item>, fields: seq<Field>, name: string, namespace: string, q: Request) {
    exists f, it :: f in fields && it in items && Hit(it, f, name, namespace) && q == Request(it.namespace, it.name)
  }

  /** A list call by index. */
  method List(items: seq<Item>, f: Field, name: string, namespace: string) returns (found: seq<Item>)
    ensures forall it :: it in found <==> it in items && Hit(it, f, name, namespace)
  {
    found := [];
    for i := 0 to |items|
      invariant forall it :: it in found <==> it in items[..i] && Hit(it, f, name, namespace)
    {
      assert items[..i + 1] == items[..i] + [items[i]];
      if Hit(items[i], f, name, namespace) {
        found := found + [items[i]];
      }
    }
    assert items[..|items|] == items;
  }

  function FirstFailure(fields: seq<Field>, fails: Field -> bool): (n: nat)
    ensures n <= |fields|
    ensures forall i :: 0 <= i < n ==> !fails(fields[i])
    ensures n < |fields| ==> fails(fields[n])
  {
    if fields == [] then 0 else if fails(fields[0]) then 0 else 1 + FirstFailure(fields[1..], fails)
  }

  /** The requests for a changed source: exactly those due to the fields before the first list call
      that fails. */
  method FindObjectsForSrc(k: Kind, items: seq<Item>, name: string, namespace: string, fails: Field -> bool)
    returns (requests: seq<Request>)
    ensures var fields := WatchFields(k)[..FirstFailure(WatchFields(k), fails)];
      forall q :: q in requests <==> DueTo(items, fields, name, namespace, q)
  {
    requests := [];
    var fields := WatchFields(k);
    for i := 0 to |fields|
      invariant i <= FirstFailure(fields, fails)
      invariant forall q :: q in requests <==> DueTo(items, fields[..i], name, namespace, q)
    {
      if fails(fields[i]) {
        return;
      }
      var found := List(items, fields[i], name, namespace);
      ghost var before := requests;
      for j := 0 to |found|
        invariant forall q :: q in requests <==>
                    q in before || exists it :: it in found[..j] && q == Request(it.namespace, it.name)
      {
        assert found[..j + 1] == found[..j] + [found[j]];
        requests := requests + [Request(found[j].namespace, found[j].name)];
      }
      assert found[..|found|] == found;
      DueToMore(items, fields[..i], fields[i], name, namespace);
      assert fields[..i + 1] == fields[..i] + [fields[i]];
    }
  }

  lemma DueToMore(items: seq<Item>, fields: seq<Field>, f: Field, name: string, namespace: string)
    ensures forall q :: DueTo(items, fields + [f], name, namespace, q) <==>
              DueTo(items, fields, name, namespace, q)
              || exists it :: it in items && Hit(it, f, name, namespace) && q == Request(it.namespace, it.name)
  {
    forall q | DueTo(items, fields, name, namespace, q) ensures DueTo(items, fields + [f], name, namespace, q) {
      var g, it :| g in fields && it in items && Hit(it, g, name, namespace) && q == Request(it.namespace, it.name);
      assert g in fields + [f];
    }
    assert f in fields + [f];
  }

  // Index and scan

  /** Some watched field of the resource equals the name, read off the spec. */
  predicate Mentions(k: Kind, spec: Spec, name: string) {
    match spec
    case Parent(w) => k == Watcher && (name == w.secret || name == w.prometheusSecret || Some(name) == w.ingressSecret)
    case Child(s) =>
      && k != Watcher
      && (name == s.secret || name == s.prometheusSecret || name == s.tls.ca
          || (k == Api && (Some(name) == s.tls.internal || Some(name) == s.tls.public)))
  }

  /** When no list call fails, the lookup and a scan of all resources agree. */
  lemma IndexAgreesWithScan(k: Kind, items: seq<Item>, name: string, namespace: string, q: Request)
    requires name != "" && forall it | it in items :: it.spec.Parent? <==> k == Watcher
    ensures DueTo(items, WatchFields(k), name, namespace, q) <==>
      exists it :: it in items && it.namespace == namespace && Mentions(k, it.spec, name) && q == Request(it.namespace, it.name)
  {
    forall it | it in items && it.namespace == namespace
      ensures Mentions(k, it.spec, name) <==> exists f :: f in WatchFields(k) && Hit(it, f, name, namespace)
    {
      FieldsMention(k, it, name);
    }
  }

  lemma FieldsMention(k: Kind, it: Item, name: string)
    requires name != "" && (it.spec.Parent? <==> k == Watcher)
    ensures Mentions(k, it.spec, name) <==> exists f :: f in WatchFields(k) && Hit(it, f, name, it.namespace)
  {
    var fs := WatchFields(k);
    match k {
      case Watcher => assert fs[0] == SecretField && fs[1] == PrometheusField && fs[2] == RouteField;
      case Api =>
        assert fs[0] == SecretField && fs[1] == PrometheusField && fs[2] == InternalField && fs[3] == PublicField
            && fs[4] == BundleField;
      case _ => assert fs[0] == SecretField && fs[1] == PrometheusField && fs[2] == BundleField;
    }
    if Mentions(k, it.spec, name) {
      match it.spec {
        case Parent(w) =>
          var f := if name == w.secret then SecretField else if name == w.prometheusSecret then PrometheusField else RouteField;
          assert f in fs && Hit(it, f, name, it.namespace);
        case Child(s) =>
          var f := if name == s.secret then SecretField else if name == s.prometheusSecret then PrometheusField
                   else if name == s.tls.ca then BundleField
                   else if Some(name) == s.tls.internal then InternalField else PublicField;
          assert f in fs && Hit(it, f, name, it.namespace);
      }
    }
  }

  // Every hashed secret is watched

  function CertSecrets(t: Tls): set<string> {
    (if t.Enabled(Internal) then {t.internal.value} else {}) + (if t.Enabled(Public) then {t.public.value} else {})
  }

  /** The secrets whose contents enter the input hash of a child. */
  function HashedSecrets(k: Kind, s: SubSpec): set<string> {
    {s.secret}
    + (if k == Applier then {} else {s.prometheusSecret})
    + (if k == Api then Given(s.tls.ca) + CertSecrets(s.tls) else {})
  }

  /** Changing a secret that enters the input hash asks for a pass of the child. */
  lemma HashedSecretWakes(k: Kind, items: seq<Item>, it: Item, name: string)
    requires k != Watcher && it in items && it.spec.Child? && name in HashedSecrets(k, it.spec.s) && name != ""
    requires forall i | i in items :: i.spec.Child?
    ensures DueTo(items, WatchFields(k), name, it.namespace, Request(it.namespace, it.name))
  {
    IndexAgreesWithScan(k, items, name, it.namespace, Request(it.namespace, it.name));
  }

  // No silent wait without a wake-up

  /** The replies about TLS secrets tell what is there. */
  predicate TlsTruthful(c: Sub, r: Replies, present: set<string>) {
    && (c.spec.tls.ca != "" && r.ca.CertsMissing? ==> c.spec.tls.ca !in present)
    && (r.certs.CertsMissing? ==> !(CertSecrets(c.spec.tls) <= present))
  }

  /** The pass waits for an object that the CR owns and whose changes it therefore sees: its
      StatefulSet, a service or its Keystone endpoint. */
  predicate AwaitsOwned(c: Sub, r: Replies) {
    && InputsRead(c, r) && (c.kind == Api ==> TlsReplyOf(c, r) == TlsOk)
    && (!ST.Deployed(c, ST.DeployReply(c, r)) ||
        (c.kind == Api && (!ST.Published(c, r).ObjectIs? || ST.Published(c, r).mirrored != Some(True)
                           || E.ExposeAll(c.spec, r.order, r.ports, r.rule) == ServiceWait)))
  }

  /** A working pass that ends without an error and without a requeue is Ready, has recorded a new
      hash, waits for an object it owns, or waits for a secret that is not there and whose creation
      asks for a pass of this CR. */
  lemma NoSilentWait(c: Sub, r: Replies, timeout: Delay, skipReady: bool, present: set<string>, items: seq<Item>, namespace: string)
    requires Fits(c, r) && ST.Working(c) && TlsTruthful(c, r, present)
    requires Silent(Pass(c, r, timeout, skipReady).exit)
    requires Item(namespace, c.name, Child(c.spec)) in items && forall i | i in items :: i.spec.Child?
    ensures
      || Is(Pass(c, r, timeout, skipReady).st.conds, Ready)
      || Pass(c, r, timeout, skipReady).st.hash != c.st.hash
      || AwaitsOwned(c, r)
      || exists n :: n !in present && DueTo(items, WatchFields(c.kind), n, namespace, Request(namespace, c.name))
  {
    ST.SilentIff(c, r, timeout, skipReady);
    ST.ReadyIff(c, r, timeout, skipReady);
    if c.kind == Api && TlsReplyOf(c, r) == TlsMissing {
      var n := if c.spec.tls.ca != "" && r.ca.CertsMissing? then c.spec.tls.ca
               else if c.spec.tls.Enabled(Internal) && c.spec.tls.internal.value !in present then c.spec.tls.internal.value
               else c.spec.tls.public.value;
      assert n !in present && n != "" && n in HashedSecrets(Api, c.spec);
      HashedSecretWakes(Api, items, Item(namespace, c.name, Child(c.spec)), n);
    }
  }
}
