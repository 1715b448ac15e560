/** Reading the secrets a pass depends on, and the input hash computed from them. */
module Secrets {
  import opened Base
  import opened Conditions
  import opened Resources
  import opened Stages

  /** What the API server answers when a secret is asked for. */
  datatype SecretReply = SecretIs(data: map<string, string>) | SecretMissing | SecretFailed

  /** The fields of the custom resource that a pass reads and writes. */
  class Instance {
    const kind: Kind
    const spec: Spec
    const gen: nat
    const deleting: bool
    var own: bool
    var conds: Table
    var observed: nat
    var hash: Option<Digest>
    var ready: nat

    constructor (kind: Kind, spec: Spec, gen: nat, deleting: bool, own: bool, st: Status)
      ensures this.kind == kind && this.spec == spec && this.gen == gen && this.deleting == deleting
      ensures this.own == own && State() == st
    {
      this.kind, this.spec, this.gen, this.deleting, this.own := kind, spec, gen, deleting, own;
      conds, observed, hash, ready := st.conds, st.observed, st.hash, st.ready;
    }

    function State(): Status
      reads this
    {
      Status(conds, observed, hash, ready)
    }

    method Set(t: Type, s: State)
      modifies this`conds
      ensures conds == old(conds)[t := s]
    {
      conds := conds[t := s];
    }
  }

  function Values(data: map<string, string>, fields: seq<string>): (vs: seq<string>)
    requires forall f | f in fields :: f in data
    ensures |vs| == |fields| && forall i :: 0 <= i < |fields| ==> vs[i] == data[fields[i]]
  {
    if fields == [] then [] else Values(data, fields[..|fields| - 1]) + [data[fields[|fields| - 1]]]
  }

  /** The contract of ensureSecret: all the fields and nothing but the fields. */
  function ReadSecret(s: SecretReply, fields: seq<string>): SecretRead {
    match s
    case SecretMissing => Missing
    case SecretFailed => Bad
    case SecretIs(data) =>
      if forall f | f in fields :: f in data then Got(OfValues(Values(data, fields))) else Bad
  }

  /** Returns the hash (None is the source's empty string), the requeue delay and whether there was
      an error. */
  method EnsureSecret(instance: Instance, s: SecretReply, fields: seq<string>, timeout: nat)
    returns (hash: Option<Digest>, after: nat, failed: bool)
    modifies instance`conds
    ensures
      match ReadSecret(s, fields)
      case Got(h) => hash == Some(h) && after == 0 && !failed && instance.conds == old(instance.conds)
      case Missing =>
        hash == None && after == timeout && !failed && instance.conds == old(instance.conds)[InputReady := False(Info)]
      case Bad =>
        hash == None && after == 0 && failed && instance.conds == old(instance.conds)[InputReady := False(Warning)]
  {
    if s.SecretMissing? {
      instance.Set(InputReady, False(Info));
      return None, timeout, false;
    }
    if s.SecretFailed? {
      instance.Set(InputReady, False(Warning));
      return None, 0, true;
    }
    var values := [];
    for i := 0 to |fields|
      invariant forall f | f in fields[..i] :: f in s.data
      invariant values == Values(s.data, fields[..i])
      invariant instance.conds == old(instance.conds)
    {
      if fields[i] !in s.data {
        instance.Set(InputReady, False(Warning));
        return None, 0, true;
      }
      values := values + [s.data[fields[i]]];
      assert fields[..i + 1][..i] == fields[..i];
    }
    assert fields[..|fields|] == fields;
    return Some(OfValues(values)), 0, false;
  }

  /** A secret is accepted exactly when it is there with every field, and then its hash says what the
      values are, in order, and nothing else. */
  lemma HashIsTheValues(s: SecretReply, t: SecretReply, fields: seq<string>)
    ensures ReadSecret(s, fields).Got? <==> s.SecretIs? && forall f | f in fields :: f in s.data
    ensures ReadSecret(s, fields).Got? && ReadSecret(t, fields).Got? ==>
              (ReadSecret(s, fields) == ReadSecret(t, fields) <==>
               forall f | f in fields :: s.data[f] == t.data[f])
  {
    if ReadSecret(s, fields).Got? && ReadSecret(t, fields).Got? {
      var vs, us := Values(s.data, fields), Values(t.data, fields);
      if vs == us {
        forall f | f in fields ensures s.data[f] == t.data[f] {
          var i :| 0 <= i < |fields| && fields[i] == f;
          assert vs[i] == us[i];
        }
      }
    }
  }

  /** The two ways in which callers decide that a secret is unusable. */
  predicate StopsOnResult(r: SecretRead, timeout: nat) {
    match r
    case Got(_) => false
    case Missing => timeout != 0
    case Bad => true
  }

  predicate StopsOnHash(r: SecretRead) {
    !r.Got?
  }

  /** They agree on every secret exactly when the requeue timeout is positive. */
  lemma GuardsAgreeIff(timeout: nat)
    ensures (forall s, fields :: StopsOnResult(ReadSecret(s, fields), timeout) == StopsOnHash(ReadSecret(s, fields)))
            <==> timeout > 0
  {
    if timeout == 0 {
      assert ReadSecret(SecretMissing, []) == Missing;
      assert StopsOnHash(ReadSecret(SecretMissing, [])) && !StopsOnResult(ReadSecret(SecretMissing, []), 0);
    }
  }

  // Field lists

  const TRANSPORT_URL := "transport_url"
  const GLOBAL_CONFIG := "01-global-custom.conf"
  const PROM_HOST := "host"
  const PROM_PORT := "port"
  const PROM_CA_SECRET := "ca_secret"
  const PROM_CA_KEY := "ca_key"

  function MainFields(passwordSelector: string): seq<string> {
    [passwordSelector, TRANSPORT_URL, "database_account", "database_username", "database_hostname",
     "database_password", GLOBAL_CONFIG]
  }

  const PROM_FIELDS := [PROM_HOST, PROM_PORT]

  /** The CA certificate that a Prometheus secret names: both keys must be set and not empty. */
  function CaOf(data: map<string, string>): Option<CaCert> {
    if PROM_CA_SECRET in data && data[PROM_CA_SECRET] != "" && PROM_CA_KEY in data && data[PROM_CA_KEY] != ""
    then Some(CaCert(data[PROM_CA_SECRET], data[PROM_CA_KEY]))
    else None
  }
}
