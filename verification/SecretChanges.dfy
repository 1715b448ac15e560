/** From a changed secret to the pods: what the input hash of a child says about its inputs, and what
    equal names can hide from it. */
module SecretChanges {
  import opened Base
  import opened Resources
  import opened Stages
  import opened Secrets
  import opened SubPass
  import opened SubTheorems
  import opened Convergence
  import Watches
  import ServicePods
  import Pods

  /** The pass gets as far as its hash. */
  predicate Accepted(c: Sub, r: Replies) {
    InputsRead(c, r) && (c.kind == Api ==> TlsReplyOf(c, r) == TlsOk)
  }

  // The variables

  function CaVar(c: Sub, r: Replies): Option<Digest> {
    if c.spec.tls.ca != "" && r.ca.CertsAre? then r.ca.hash else None
  }

  function CertVar(r: Replies): Digest {
    if r.certs.CertsAre? && r.certs.hash.Some? then r.certs.hash.value else OfText("")
  }

  /** The names that the variables of the controller itself take. */
  function OwnKeys(c: Sub): set<string> {
    {ConfigKey(c.name)} + if c.kind == Api then {CA_BUNDLE_KEY, TLS_HASH_NAME} else {}
  }

  /** No two variables share a name. */
  predicate Apart(c: Sub) {
    && c.spec.secret !in OwnKeys(c)
    && (c.kind != Applier ==> c.spec.prometheusSecret !in OwnKeys(c) && c.spec.prometheusSecret != c.spec.secret)
  }

  /** The rendered configuration has a name of its own, whatever the CR is called. */
  lemma ConfigKeyIsItsOwn(name: string)
    ensures ConfigKey(name) != CA_BUNDLE_KEY && ConfigKey(name) != TLS_HASH_NAME
  {
    var key := ConfigKey(name);
    assert |key| >= 12 && key[|key| - 1] == 'a';
  }

  lemma RenderStands(c: Sub, r: Replies)
    requires Accepted(c, r)
    ensures ConfigKey(c.name) in ConfigVars(c, r) && ConfigVars(c, r)[ConfigKey(c.name)] == r.render
  {
    ConfigKeyIsItsOwn(c.name);
  }

  lemma VarsStand(c: Sub, r: Replies)
    requires Accepted(c, r) && Apart(c)
    ensures var v := ConfigVars(c, r);
      && c.spec.secret in v && v[c.spec.secret] == MainRead(c, r).hash
      && (c.kind != Applier ==> c.spec.prometheusSecret in v && v[c.spec.prometheusSecret] == PromRead(r).hash)
  {}

  lemma TlsVarsStand(c: Sub, r: Replies)
    requires Accepted(c, r) && Apart(c) && c.kind == Api
    ensures var v := ConfigVars(c, r);
      && TLS_HASH_NAME in v && v[TLS_HASH_NAME] == CertVar(r)
      && (if CA_BUNDLE_KEY in v then CaVar(c, r) == Some(v[CA_BUNDLE_KEY]) else CaVar(c, r) == None)
  {
    ConfigKeyIsItsOwn(c.name);
    assert CA_BUNDLE_KEY != TLS_HASH_NAME;
  }

  /** The same inputs, as far as they are hashed. */
  predicate SameInputs(c: Sub, r: Replies, q: Replies) {
    && MainRead(c, r) == MainRead(c, q) && (c.kind != Applier ==> PromRead(r) == PromRead(q))
    && r.render == q.render
    && (c.kind == Api ==> CaVar(c, r) == CaVar(c, q) && CertVar(r) == CertVar(q))
  }

  /** With distinct names the input hash stays exactly when every hashed input does. */
  lemma HashIsTheInputs(c: Sub, r: Replies, q: Replies)
    requires Accepted(c, r) && Accepted(c, q) && Apart(c)
    ensures InputHash(c, r) == InputHash(c, q) <==> SameInputs(c, r, q)
  {
    if SameInputs(c, r, q) {
      SameVars(c, r, q);
    } else {
      RenderStands(c, r);
      RenderStands(c, q);
      VarsStand(c, r);
      VarsStand(c, q);
      if c.kind == Api {
        TlsVarsStand(c, r);
        TlsVarsStand(c, q);
      }
    }
  }

  lemma SameVars(c: Sub, r: Replies, q: Replies)
    requires Accepted(c, r) && Accepted(c, q) && SameInputs(c, r, q)
    ensures ConfigVars(c, r) == ConfigVars(c, q)
  {}

  // Every hashed secret

  /** What is hashed of the secret n differs. */
  predicate ContentChanges(c: Sub, r: Replies, q: Replies, n: string) {
    || (n == c.spec.secret && MainRead(c, r) != MainRead(c, q))
    || (c.kind != Applier && n == c.spec.prometheusSecret && PromRead(r) != PromRead(q))
    || (c.kind == Api && n == c.spec.tls.ca && CaVar(c, r) != CaVar(c, q))
    || (c.kind == Api && n in Watches.CertSecrets(c.spec.tls) && CertVar(r) != CertVar(q))
  }

  /** From a value to the pods, for every secret that enters the input hash: when its hashed content
      changes, whatever the configuration is rendered to and whatever else changes with it, a pass of
      the CR is asked for, the input hash changes, and two full passes later the StatefulSet carries
      the new one. */
  lemma HashedSecretReachesPods(x: Cluster, r: Replies, q: Replies, n: string, items: seq<Watches.Item>,
                                namespace: string, timeout: Delay, skipReady: bool)
    requires Frozen(x.c, r) && Frozen(x.c, q) && !Opening(x.c) && Apart(x.c)
    requires n in Watches.HashedSecrets(x.c.kind, x.c.spec) && n != "" && ContentChanges(x.c, r, q, n)
    requires Watches.Item(namespace, x.c.name, Child(x.c.spec)) in items && forall i | i in items :: i.spec.Child?
    ensures Watches.DueTo(items, Watches.WatchFields(x.c.kind), n, namespace, Watches.Request(namespace, x.c.name))
    ensures Goal(x.c, q) != Goal(x.c, r)
    ensures var y := Steps(x, q, timeout, skipReady, [FULL, FULL]);
      y.sts.Some? && y.sts.value.work.configHash == Goal(x.c, q)
  {
    Watches.HashedSecretWakes(x.c.kind, items, Watches.Item(namespace, x.c.name, Child(x.c.spec)), n);
    HashIsTheInputs(x.c, r, q);
    NewHashReachesPods(x, q, timeout, skipReady);
  }

  // Equal names

  /** The variables that are written over the Prometheus secret's. */
  function KeysAfterSecrets(c: Sub, r: Replies): set<string> {
    {ConfigKey(c.name)}
    + (if c.kind == Api then {TLS_HASH_NAME} else {})
    + (if c.kind == Api && CaVar(c, r).Some? then {CA_BUNDLE_KEY} else {})
  }

  /** A later variable takes the name of the main secret. */
  predicate Overwritten(c: Sub, r: Replies) {
    c.spec.secret in KeysAfterSecrets(c, r) + (if c.kind == Applier then {} else {c.spec.prometheusSecret})
  }

  lemma MainSecretStays(c: Sub, r: Replies)
    requires Accepted(c, r) && !Overwritten(c, r)
    ensures c.spec.secret in ConfigVars(c, r) && ConfigVars(c, r)[c.spec.secret] == MainRead(c, r).hash
  {}

  lemma MainSecretGoes(c: Sub, r: Replies, main: SecretReply)
    requires Accepted(c, r) && Overwritten(c, r) && InputsRead(c, r.(main := main))
    ensures ConfigVars(c, r.(main := main)) == ConfigVars(c, r)
  {}

  /** A change of the main secret's hashed values, with the configuration rendered to anything, changes
      the input hash exactly when no later variable has the secret's name or the rendered configuration
      changes too. */
  lemma MainSecretIsCovered(c: Sub, r: Replies, main: SecretReply, render: Digest)
    requires var q := r.(main := main, render := render);
      Accepted(c, r) && Accepted(c, q) && MainRead(c, q) != MainRead(c, r)
    ensures InputHash(c, r.(main := main, render := render)) != InputHash(c, r) <==>
              !Overwritten(c, r) || render != r.render
  {
    var q := r.(main := main, render := render);
    RenderStands(c, r);
    RenderStands(c, q);
    if !Overwritten(c, r) {
      MainSecretStays(c, r);
      MainSecretStays(c, q);
    } else if render == r.render {
      MainSecretGoes(c, r, main);
      assert q == r.(main := main);
    }
  }

  lemma PrometheusSecretStays(c: Sub, r: Replies)
    requires c.kind != Applier && Accepted(c, r) && c.spec.prometheusSecret !in KeysAfterSecrets(c, r)
    ensures var v := ConfigVars(c, r);
      c.spec.prometheusSecret in v && v[c.spec.prometheusSecret] == PromRead(r).hash
  {}

  lemma PrometheusSecretGoes(c: Sub, r: Replies, prom: SecretReply)
    requires c.kind != Applier && Accepted(c, r) && c.spec.prometheusSecret in KeysAfterSecrets(c, r)
    requires InputsRead(c, r.(prom := prom))
    ensures ConfigVars(c, r.(prom := prom)) == ConfigVars(c, r)
  {}

  /** The same for the Prometheus secret. */
  lemma PrometheusSecretIsCovered(c: Sub, r: Replies, prom: SecretReply, render: Digest)
    requires var q := r.(prom := prom, render := render);
      c.kind != Applier && Accepted(c, r) && Accepted(c, q) && PromRead(q) != PromRead(r)
    ensures InputHash(c, r.(prom := prom, render := render)) != InputHash(c, r) <==>
              c.spec.prometheusSecret !in KeysAfterSecrets(c, r) || render != r.render
  {
    var q := r.(prom := prom, render := render);
    RenderStands(c, r);
    RenderStands(c, q);
    if c.spec.prometheusSecret !in KeysAfterSecrets(c, r) {
      PrometheusSecretStays(c, r);
      PrometheusSecretStays(c, q);
    } else if render == r.render {
      PrometheusSecretGoes(c, r, prom);
      assert q == r.(prom := prom);
    }
  }

  /** One changed value of the main secret, however the configuration renders it. */
  lemma SecretChangeReachesPods(x: Cluster, r: Replies, data: map<string, string>, render: Digest, f: string,
                                timeout: Delay, skipReady: bool)
    requires Frozen(x.c, r) && !Opening(x.c) && f in MainFields(x.c.spec.passwordSelector)
    requires var q := r.(main := SecretIs(data), render := render);
      Frozen(x.c, q) && r.main.SecretIs? && data[f] != r.main.data[f]
    requires !Overwritten(x.c, r)
    ensures var q := r.(main := SecretIs(data), render := render);
      var y := Steps(x, q, timeout, skipReady, [FULL, FULL]);
      y.sts.Some? && y.sts.value.work.configHash == Goal(x.c, q) && Goal(x.c, q) != Goal(x.c, r)
  {
    var q := r.(main := SecretIs(data), render := render);
    HashIsTheValues(r.main, q.main, MainFields(x.c.spec.passwordSelector));
    MainSecretIsCovered(x.c, r, q.main, render);
    NewHashReachesPods(x, q, timeout, skipReady);
  }

  // What equal names hide

  const ACCOUNT := "database_account"

  /** The fields of the main secret that the templates name; the database account is only looked up. */
  function RenderedFields(passwordSelector: string): seq<string> {
    [passwordSelector, TRANSPORT_URL, "database_username", "database_hostname", "database_password", GLOBAL_CONFIG]
  }

  /** What the rendered configuration is computed from; rest stands for the spec, the Keystone URL, the
      Memcached servers and the database client configuration. */
  datatype Params = Params(main: seq<string>, prom: seq<string>, caPath: Option<Pods.Path>, rest: string)

  function ParamsOf(c: Sub, r: Replies, rest: string): Params
    requires InputsRead(c, r)
  {
    var fields := RenderedFields(c.spec.passwordSelector);
    RenderedAreRead(c.spec.passwordSelector);
    Params(Values(r.main.data, fields),
           if c.kind == Applier then [] else Values(r.prom.data, PROM_FIELDS),
           if PodCa(c, r).None? then None else Some(Pods.Join(ServicePods.PROM_DIR, PodCa(c, r).value.key)),
           rest)
  }

  lemma RenderedAreRead(sel: string)
    ensures forall f | f in RenderedFields(sel) :: f in MainFields(sel)
    ensures forall f | f in MainFields(sel) :: f == ACCOUNT || f in RenderedFields(sel)
  {}

  predicate RenderedBy(c: Sub, r: Replies, template: Params -> Digest, rest: string) {
    InputsRead(c, r) && r.render == template(ParamsOf(c, r, rest))
  }

  /** Both reads are of one secret. */
  predicate OneSecret(c: Sub, r: Replies, data: map<string, string>) {
    && c.kind != Applier && c.spec.secret == c.spec.prometheusSecret
    && r.main == SecretIs(data) && r.prom == SecretIs(data)
  }

  lemma AccountAside(sel: string)
    requires sel != ACCOUNT
    ensures forall f | f in RenderedFields(sel) :: f != ACCOUNT
    ensures ACCOUNT !in {PROM_HOST, PROM_PORT, PROM_CA_SECRET, PROM_CA_KEY}
    ensures ACCOUNT in MainFields(sel)
  {
    assert MainFields(sel)[2] == ACCOUNT;
    assert |TRANSPORT_URL| == 13 && |GLOBAL_CONFIG| == 21 && |ACCOUNT| == 16;
    assert "database_username"[9] == 'u' && "database_hostname"[9] == 'h' && "database_password"[9] == 'p' && ACCOUNT[9] == 'a';
  }

  lemma AccountParams(c: Sub, r: Replies, data: map<string, string>, account: string, rest: string)
    requires InputsRead(c, r) && OneSecret(c, r, data) && c.spec.passwordSelector != ACCOUNT
    ensures var s := SecretIs(data[ACCOUNT := account]); var q := r.(main := s, prom := s);
      && InputsRead(c, q) && PromRead(q) == PromRead(r) && PodCa(c, q) == PodCa(c, r)
      && ParamsOf(c, q, rest) == ParamsOf(c, r, rest)
  {
    var later := data[ACCOUNT := account];
    AccountAside(c.spec.passwordSelector);
    SameValues(data, later, RenderedFields(c.spec.passwordSelector));
    SameValues(data, later, PROM_FIELDS);
    assert forall f | f in PROM_FIELDS :: f in {PROM_HOST, PROM_PORT};
  }

  /** When a child's secret and its Prometheus secret are one, a new database account in it changes the
      hashed values and, whatever the template, not the input hash. */
  lemma AccountIsHidden(c: Sub, r: Replies, data: map<string, string>, account: string, template: Params -> Digest, rest: string)
    requires Accepted(c, r) && OneSecret(c, r, data) && RenderedBy(c, r, template, rest)
    requires c.spec.passwordSelector != ACCOUNT && ACCOUNT in data && account != data[ACCOUNT]
    ensures var s := SecretIs(data[ACCOUNT := account]); var q := r.(main := s, prom := s);
      && RenderedBy(c, q, template, rest) && OneSecret(c, q, data[ACCOUNT := account]) && Accepted(c, q)
      && MainRead(c, q) != MainRead(c, r) && InputHash(c, q) == InputHash(c, r)
  {
    var s := SecretIs(data[ACCOUNT := account]);
    var q := r.(main := s, prom := s);
    AccountParams(c, r, data, account, rest);
    AccountAside(c.spec.passwordSelector);
    HashIsTheValues(r.main, s, MainFields(c.spec.passwordSelector));
    OneSecretHash(c, r, q, data, s.data);
  }

  lemma SameValues(a: map<string, string>, b: map<string, string>, fields: seq<string>)
    requires forall f | f in fields :: f in a && f in b && a[f] == b[f]
    ensures Values(a, fields) == Values(b, fields)
  {}

  lemma ValuesTell(a: map<string, string>, b: map<string, string>, fields: seq<string>)
    requires forall f | f in fields :: f in a && f in b
    ensures Values(a, fields) == Values(b, fields) <==> forall f | f in fields :: a[f] == b[f]
  {
    if Values(a, fields) == Values(b, fields) {
      forall f | f in fields ensures a[f] == b[f] {
        var i :| 0 <= i < |fields| && fields[i] == f;
        assert Values(a, fields)[i] == Values(b, fields)[i];
      }
    } else {
      if forall f | f in fields :: a[f] == b[f] {
        SameValues(a, b, fields);
      }
    }
  }

  lemma OneSecretHash(c: Sub, r: Replies, q: Replies, data: map<string, string>, later: map<string, string>)
    requires Accepted(c, r) && OneSecret(c, r, data) && Accepted(c, q)
    requires q == r.(main := SecretIs(later), prom := SecretIs(later), render := q.render)
    ensures InputHash(c, q) == InputHash(c, r) <==>
              q.render == r.render && (PromRead(q) == PromRead(r) || c.spec.prometheusSecret in KeysAfterSecrets(c, r))
  {
    RenderStands(c, r);
    RenderStands(c, q);
    var v, u := ConfigVars(c, r), ConfigVars(c, q);
    if c.spec.prometheusSecret !in KeysAfterSecrets(c, r) {
      PrometheusSecretStays(c, r);
      PrometheusSecretStays(c, q);
    }
    if q.render == r.render && (PromRead(q) == PromRead(r) || c.spec.prometheusSecret in KeysAfterSecrets(c, r)) {
      assert v == u;
    }
  }

  /** And nothing else is: when they are one secret and the template is injective, the input hash stays
      exactly when every value but the account does, and the CA path with them. */
  lemma OnlyTheAccountIsHidden(c: Sub, r: Replies, q: Replies, data: map<string, string>, later: map<string, string>,
                               template: Params -> Digest, rest: string)
    requires Accepted(c, r) && OneSecret(c, r, data) && RenderedBy(c, r, template, rest)
    requires q == r.(main := SecretIs(later), prom := SecretIs(later), render := q.render)
    requires Accepted(c, q) && RenderedBy(c, q, template, rest)
    requires forall a, b :: template(a) == template(b) ==> a == b
    ensures InputHash(c, q) == InputHash(c, r) <==>
              && (forall f | f in RenderedFields(c.spec.passwordSelector) + PROM_FIELDS :: data[f] == later[f])
              && ParamsOf(c, q, rest).caPath == ParamsOf(c, r, rest).caPath
  {
    var sel := c.spec.passwordSelector;
    OneSecretHash(c, r, q, data, later);
    ValuesTell(data, later, RenderedFields(sel));
    ValuesTell(data, later, PROM_FIELDS);
    HashIsTheValues(r.prom, q.prom, PROM_FIELDS);
    assert q.render == r.render <==> ParamsOf(c, q, rest) == ParamsOf(c, r, rest);
  }
}
