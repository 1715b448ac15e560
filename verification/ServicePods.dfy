/** The pods of the three services, the dbsync job and the purge job. */
module ServicePods {
  import opened Base
  import opened Resources
  import opened Secrets
  import opened Endpoints
  import opened Pods

  const LOGS := "logs"
  const CUSTOM := "config-data-custom"
  const PROM_CA := "custom-prometheus-ca"
  const SYNC := "db-sync-config-data"
  const SCRIPTS := "scripts-volume"

  const PROM_DIR: Path := ["etc", "pki", "ca-trust", "extracted", "pem", "prometheus"]
  const DEFAULT_DIR: Path := ["var", "lib", "config-data", "default"]
  const MY_CNF: Path := ["etc", "my.cnf"]
  const KOLLA: Path := ["var", "lib", "kolla", "config_files", "config.json"]
  const LOG_DIR: Path := ["var", "log", "watcher"]
  const BIN_DIR: Path := ["var", "lib", "openstack", "bin"]
  const CONF_DIR: Path := ["etc", "watcher", "watcher.conf.d"]

  /** Names and paths that the TLS library uses for the CA bundle and for certificates. */
  datatype Lib = Lib(caVolume: string, caPaths: seq<Path>,
                     certVolume: Endpoint -> string, certPaths: Endpoint -> seq<Path>)

  function OwnNames(): seq<string> {
    [CONFIG, LOGS, CUSTOM, SYNC, SCRIPTS]
  }

  function OwnPaths(): seq<Path> {
    [DEFAULT_DIR, MY_CNF, CONF_DIR, KOLLA, LOG_DIR, BIN_DIR]
  }

  /** The library's names and paths do not clash with each other, with the operator's own ones, or
      with the directory of the Prometheus CA. */
  ghost predicate LibOk(lib: Lib) {
    && Unique(OwnNames() + [lib.caVolume] + [PROM_CA] + [lib.certVolume(Internal)] + [lib.certVolume(Public)])
    && Unique(OwnPaths() + lib.caPaths + lib.certPaths(Internal) + lib.certPaths(Public))
    && forall p | p in lib.caPaths + lib.certPaths(Internal) + lib.certPaths(Public) :: !(PROM_DIR <= p)
  }

  function MountsAt(name: string, paths: seq<Path>): seq<Mount> {
    seq(|paths|, i requires 0 <= i < |paths| => Mount(name, paths[i], ""))
  }

  function If<T>(on: bool, s: seq<T>): seq<T> {
    if on then s else []
  }

  // Services

  /** Everything but the Prometheus CA. */
  function PlainVolumes(lib: Lib, name: string): seq<Volume> {
    BaseVolumes(name, []) + [Volume(LOGS, None), Volume(CUSTOM, Some(name + "-config-data"))]
  }

  function CaVolumes(lib: Lib, tls: Tls): seq<Volume> {
    If(tls.ca != "", [Volume(lib.caVolume, Some(tls.ca))])
  }

  function PromVolumes(prom: Option<CaCert>): seq<Volume> {
    if prom.None? then [] else [Volume(PROM_CA, Some(prom.value.secret))]
  }

  function CertVolumes(lib: Lib, tls: Tls, e: Endpoint): seq<Volume> {
    if tls.Enabled(e) then [Volume(lib.certVolume(e), tls.SecretOf(e))] else []
  }

  function ServiceVolumes(lib: Lib, name: string, tls: Tls, prom: Option<CaCert>): seq<Volume> {
    PlainVolumes(lib, name) + CaVolumes(lib, tls) + PromVolumes(prom)
    + CertVolumes(lib, tls, Internal) + CertVolumes(lib, tls, Public)
  }

  function PlainMounts(component: string): seq<Mount> {
    BaseMounts([]) + [Mount(CONFIG, KOLLA, component + "-config.json"), Mount(LOGS, LOG_DIR, "")]
  }

  function CaMounts(lib: Lib, tls: Tls): seq<Mount> {
    If(tls.ca != "", MountsAt(lib.caVolume, lib.caPaths))
  }

  function PromMounts(prom: Option<CaCert>): seq<Mount> {
    if prom.None? then [] else [Mount(PROM_CA, Join(PROM_DIR, prom.value.key), prom.value.key)]
  }

  function CertMounts(lib: Lib, tls: Tls, e: Endpoint): seq<Mount> {
    If(tls.Enabled(e), MountsAt(lib.certVolume(e), lib.certPaths(e)))
  }

  function ServiceMounts(lib: Lib, component: string, tls: Tls, prom: Option<CaCert>): seq<Mount> {
    PlainMounts(component) + CaMounts(lib, tls) + PromMounts(prom)
    + CertMounts(lib, tls, Internal) + CertMounts(lib, tls, Public)
  }

  /** logMounts: the mounts of the log container, where there is one. */
  datatype Pod = Pod(volumes: seq<Volume>, mounts: seq<Mount>, logMounts: seq<Mount>, configHash: Digest)

  class HttpGet {
    var https: bool

    constructor ()
      ensures !https
    {
      https := false;
    }
  }

  class Probe {
    var action: HttpGet?

    constructor ()
      ensures action == null
    {
      action := null;
    }
  }

  /** The three probes share one HTTP action, so that setting its scheme sets it for all. */
  method ApiProbes(tls: Tls) returns (startup: Probe, liveness: Probe, readiness: Probe)
    ensures fresh(startup) && fresh(liveness) && fresh(readiness)
    ensures startup.action != null && liveness.action != null && readiness.action != null
    ensures startup.action.https == liveness.action.https == readiness.action.https == tls.Enabled(Public)
  {
    startup := new Probe();
    liveness := new Probe();
    readiness := new Probe();
    liveness.action := new HttpGet();
    readiness.action := liveness.action;
    startup.action := liveness.action;
    if tls.Enabled(Public) {
      liveness.action.https := true;
      readiness.action.https := true;
      startup.action.https := true;
    }
  }

  lemma Regroup<T>(x: seq<T>, a: seq<T>, b: seq<T>, c: seq<T>, d: seq<T>, e: seq<T>)
    ensures x + (a + b + c + d + e) == x + a + b + c + d + e
  {}

  /** The part common to the API and the engine. */
  method CommonParts(lib: Lib, name: string, component: string, ca: string, prom: Option<CaCert>)
    returns (volumes: seq<Volume>, mounts: seq<Mount>)
    ensures var tls := Tls(ca, None, None);
      && volumes == [Volume(LOGS, None), Volume(CUSTOM, Some(name + "-config-data"))] + CaVolumes(lib, tls) + PromVolumes(prom)
      && mounts == [Mount(CONFIG, KOLLA, component + "-config.json"), Mount(LOGS, LOG_DIR, "")] + CaMounts(lib, tls) + PromMounts(prom)
  {
    volumes := [Volume(LOGS, None)] + [Volume(CUSTOM, Some(name + "-config-data"))];
    mounts := [Mount(CONFIG, KOLLA, component + "-config.json")];
    mounts := mounts + [Mount(LOGS, LOG_DIR, "")];
    if ca != "" {
      volumes := volumes + [Volume(lib.caVolume, Some(ca))];
      mounts := mounts + MountsAt(lib.caVolume, lib.caPaths);
    }
    if prom.Some? {
      volumes := volumes + [Volume(PROM_CA, Some(prom.value.secret))];
      mounts := mounts + [Mount(PROM_CA, Join(PROM_DIR, prom.value.key), prom.value.key)];
    }
  }

  method ApiStatefulSet(lib: Lib, name: string, s: SubSpec, hash: Digest, prom: Option<CaCert>) returns (pod: Pod)
    ensures pod == Pod(ServiceVolumes(lib, name, s.tls, prom), ServiceMounts(lib, "watcher-api", s.tls, prom),
                       [Mount(LOGS, LOG_DIR, "")], hash)
  {
    var volumes, mounts := CommonParts(lib, name, "watcher-api", s.tls.ca, prom);
    ghost var v0, m0 := volumes, mounts;
    var order := [Internal, Public];
    for i := 0 to 2
      invariant volumes == v0 + (if i > 0 then CertVolumes(lib, s.tls, Internal) else [])
                              + (if i > 1 then CertVolumes(lib, s.tls, Public) else [])
      invariant mounts == m0 + (if i > 0 then CertMounts(lib, s.tls, Internal) else [])
                             + (if i > 1 then CertMounts(lib, s.tls, Public) else [])
    {
      var e := order[i];
      if s.tls.Enabled(e) {
        var secret := if e == Public then s.tls.public else s.tls.internal;
        volumes := volumes + [Volume(lib.certVolume(e), secret)];
        mounts := mounts + MountsAt(lib.certVolume(e), lib.certPaths(e));
      }
    }
    var baseVolumes := GetVolumes(name, []);
    var baseMounts := GetVolumeMounts([]);
    pod := Pod(baseVolumes + volumes, baseMounts + mounts, [Mount(LOGS, LOG_DIR, "")], hash);
    Regroup(baseVolumes, [Volume(LOGS, None), Volume(CUSTOM, Some(name + "-config-data"))], CaVolumes(lib, s.tls),
            PromVolumes(prom), CertVolumes(lib, s.tls, Internal), CertVolumes(lib, s.tls, Public));
    Regroup(baseMounts, [Mount(CONFIG, KOLLA, "watcher-api" + "-config.json"), Mount(LOGS, LOG_DIR, "")],
            CaMounts(lib, s.tls), PromMounts(prom), CertMounts(lib, s.tls, Internal), CertMounts(lib, s.tls, Public));
  }

  /** The spec of an engine or an applier names no endpoint certificates. */
  method EngineStatefulSet(lib: Lib, name: string, s: SubSpec, hash: Digest, prom: Option<CaCert>) returns (pod: Pod)
    ensures pod == Pod(ServiceVolumes(lib, name, Tls(s.tls.ca, None, None), prom),
                       ServiceMounts(lib, "watcher-decision-engine", Tls(s.tls.ca, None, None), prom), [], hash)
  {
    var volumes, mounts := CommonParts(lib, name, "watcher-decision-engine", s.tls.ca, prom);
    var baseVolumes := GetVolumes(name, []);
    var baseMounts := GetVolumeMounts([]);
    pod := Pod(baseVolumes + volumes, baseMounts + mounts, [], hash);
    var tls := Tls(s.tls.ca, None, None);
    Regroup(baseVolumes, [Volume(LOGS, None), Volume(CUSTOM, Some(name + "-config-data"))], CaVolumes(lib, tls),
            PromVolumes(prom), [], []);
    Regroup(baseMounts, [Mount(CONFIG, KOLLA, "watcher-decision-engine" + "-config.json"), Mount(LOGS, LOG_DIR, "")],
            CaMounts(lib, tls), PromMounts(prom), [], []);
  }

  method ApplierStatefulSet(lib: Lib, name: string, s: SubSpec, hash: Digest) returns (pod: Pod)
    ensures pod == Pod(ServiceVolumes(lib, name, Tls(s.tls.ca, None, None), None),
                       ServiceMounts(lib, "watcher-applier", Tls(s.tls.ca, None, None), None), [], hash)
  {
    var volumes := [Volume(LOGS, None)] + [Volume(CUSTOM, Some(name + "-config-data"))];
    var mounts := [Mount(CONFIG, KOLLA, "watcher-applier" + "-config.json")];
    mounts := mounts + [Mount(LOGS, LOG_DIR, "")];
    if s.tls.ca != "" {
      volumes := volumes + [Volume(lib.caVolume, Some(s.tls.ca))];
      mounts := mounts + MountsAt(lib.caVolume, lib.caPaths);
    }
    var baseVolumes := GetVolumes(name, []);
    var baseMounts := GetVolumeMounts([]);
    pod := Pod(baseVolumes + volumes, baseMounts + mounts, [], hash);
  }

  // Jobs

  function PurgeVolumes(lib: Lib, name: string, ca: string): seq<Volume> {
    BaseVolumes(name, []) + [Volume(CUSTOM, Some(name + "-config-data")), Volume(SCRIPTS, Some(name + "-scripts"))]
    + If(ca != "", [Volume(lib.caVolume, Some(ca))])
  }

  function PurgeMounts(lib: Lib, ca: string): seq<Mount> {
    BaseMounts([]) + [Mount(CONFIG, KOLLA, "watcher-dbpurge" + "-config.json"), Mount(SCRIPTS, BIN_DIR, "")]
    + If(ca != "", MountsAt(lib.caVolume, lib.caPaths))
  }

  method DBPurgeCronJob(lib: Lib, name: string, ca: string) returns (volumes: seq<Volume>, mounts: seq<Mount>)
    ensures volumes == PurgeVolumes(lib, name, ca) && mounts == PurgeMounts(lib, ca)
  {
    var base := GetVolumes(name, []);
    volumes := base + [Volume(CUSTOM, Some(name + "-config-data"))];
    var general := GetVolumeMounts([]);
    mounts := general + [Mount(CONFIG, KOLLA, "watcher-dbpurge" + "-config.json")];
    volumes := volumes + [Volume(SCRIPTS, Some(name + "-scripts"))];
    mounts := mounts + [Mount(SCRIPTS, BIN_DIR, "")];
    if ca != "" {
      volumes := volumes + [Volume(lib.caVolume, Some(ca))];
      mounts := mounts + MountsAt(lib.caVolume, lib.caPaths);
    }
  }

  function SyncVolumes(lib: Lib, name: string, ca: string): seq<Volume> {
    BaseVolumes(name, []) + [Volume(SYNC, Some(name + "-config-data"))]
    + If(ca != "", [Volume(lib.caVolume, Some(ca))])
  }

  function SyncMounts(lib: Lib, ca: string): seq<Mount> {
    BaseMounts([]) + [Mount(SYNC, CONF_DIR, ""), Mount(CONFIG, KOLLA, "watcher-dbsync-config.json")]
    + If(ca != "", MountsAt(lib.caVolume, lib.caPaths))
  }

  method DbSyncJob(lib: Lib, name: string, ca: string) returns (volumes: seq<Volume>, mounts: seq<Mount>)
    ensures volumes == SyncVolumes(lib, name, ca) && mounts == SyncMounts(lib, ca)
  {
    volumes := [Volume(SYNC, Some(name + "-config-data"))];
    mounts := [Mount(SYNC, CONF_DIR, ""), Mount(CONFIG, KOLLA, "watcher-dbsync-config.json")];
    if ca != "" {
      volumes := volumes + [Volume(lib.caVolume, Some(ca))];
      mounts := mounts + MountsAt(lib.caVolume, lib.caPaths);
    }
    var base := GetVolumes(name, []);
    var general := GetVolumeMounts([]);
    volumes := base + volumes;
    mounts := general + mounts;
  }

  // Well-formedness

  lemma UniqueDrop<T>(a: seq<T>, b: seq<T>, c: seq<T>)
    requires Unique(a + b + c)
    ensures Unique(a + c)
  {
    var whole, part := a + b + c, a + c;
    forall i, j | 0 <= i < j < |part| ensures part[i] != part[j] {
      var m := if i < |a| then i else i + |b|;
      var n := if j < |a| then j else j + |b|;
      assert whole[m] == part[i] && whole[n] == part[j] && m < n;
    }
  }

  lemma UniqueInsert<T>(a: seq<T>, x: T, b: seq<T>)
    ensures Unique(a + [x] + b) <==> Unique(a + b) && x !in a + b
  {
    var with, without := a + [x] + b, a + b;
    if Unique(with) {
      UniqueDrop(a, [x], b);
      forall i | 0 <= i < |without| ensures without[i] != x {
        assert with[|a|] == x && with[if i < |a| then i else i + 1] == without[i];
      }
    }
    if Unique(without) && x !in without {
      forall i, j | 0 <= i < j < |with| ensures with[i] != with[j] {
        assert i < |a| ==> with[i] == without[i];
        assert i > |a| ==> with[i] == without[i - 1];
        assert j < |a| ==> with[j] == without[j];
        assert j > |a| ==> with[j] == without[j - 1];
      }
    }
  }

  lemma UniqueIf<T>(a: seq<T>, f: bool, b: seq<T>, c: seq<T>)
    requires Unique(a + b + c)
    ensures Unique(a + If(f, b) + c)
  {
    if !f {
      UniqueDrop(a, b, c);
      assert a + [] + c == a + c;
    }
  }

  lemma UniqueIfs<T>(a: seq<T>, f1: bool, b1: seq<T>, f2: bool, b2: seq<T>, f3: bool, b3: seq<T>, f4: bool, b4: seq<T>)
    requires Unique(a + b1 + b2 + b3 + b4)
    ensures Unique(a + If(f1, b1) + If(f2, b2) + If(f3, b3) + If(f4, b4))
  {
    assert a + b1 + b2 + b3 + b4 == a + b1 + (b2 + b3 + b4);
    UniqueIf(a, f1, b1, b2 + b3 + b4);
    var a1 := a + If(f1, b1);
    assert a1 + (b2 + b3 + b4) == a1 + b2 + (b3 + b4);
    UniqueIf(a1, f2, b2, b3 + b4);
    var a2 := a1 + If(f2, b2);
    assert a2 + (b3 + b4) == a2 + b3 + b4;
    UniqueIf(a2, f3, b3, b4);
    var a3 := a2 + If(f3, b3);
    assert a3 + b4 == a3 + b4 + [];
    UniqueIf(a3, f4, b4, []);
    assert a3 + If(f4, b4) + [] == a3 + If(f4, b4);
  }

  function ServiceNames(lib: Lib, tls: Tls, prom: Option<CaCert>): seq<string> {
    [CONFIG, LOGS, CUSTOM] + If(tls.ca != "", [lib.caVolume]) + If(prom.Some?, [PROM_CA])
    + If(tls.Enabled(Internal), [lib.certVolume(Internal)]) + If(tls.Enabled(Public), [lib.certVolume(Public)])
  }

  function OtherPaths(lib: Lib, tls: Tls): seq<Path> {
    [DEFAULT_DIR, MY_CNF, KOLLA, LOG_DIR] + If(tls.ca != "", lib.caPaths)
    + If(tls.Enabled(Internal), lib.certPaths(Internal)) + If(tls.Enabled(Public), lib.certPaths(Public))
  }

  lemma NamesOf(lib: Lib, name: string, tls: Tls, prom: Option<CaCert>)
    ensures Names(ServiceVolumes(lib, name, tls, prom)) == ServiceNames(lib, tls, prom)
  {}

  lemma PathsAppend(a: seq<Mount>, b: seq<Mount>)
    ensures Paths(a + b) == Paths(a) + Paths(b)
  {}

  lemma PathsAt(name: string, paths: seq<Path>)
    ensures Paths(MountsAt(name, paths)) == paths
  {}

  lemma PathsOf(lib: Lib, component: string, tls: Tls, prom: Option<CaCert>)
    ensures Paths(ServiceMounts(lib, component, tls, prom)) ==
      [DEFAULT_DIR, MY_CNF, KOLLA, LOG_DIR] + If(tls.ca != "", lib.caPaths)
      + (if prom.Some? then [Join(PROM_DIR, prom.value.key)] else [])
      + If(tls.Enabled(Internal), lib.certPaths(Internal)) + If(tls.Enabled(Public), lib.certPaths(Public))
  {
    var a, b, c := PlainMounts(component), CaMounts(lib, tls), PromMounts(prom);
    var d, e := CertMounts(lib, tls, Internal), CertMounts(lib, tls, Public);
    PathsAppend(a, b);
    PathsAppend(a + b, c);
    PathsAppend(a + b + c, d);
    PathsAppend(a + b + c + d, e);
    PathsAt(lib.caVolume, lib.caPaths);
    PathsAt(lib.certVolume(Internal), lib.certPaths(Internal));
    PathsAt(lib.certVolume(Public), lib.certPaths(Public));
    assert Paths(a) == [DEFAULT_DIR, MY_CNF, KOLLA, LOG_DIR];
  }

  /** Dropping x from the front part of a list leaves it without repetitions. */
  lemma DropFront<T>(a: seq<T>, x: seq<T>, y: seq<T>, b: seq<T>, c: seq<T>, d: seq<T>, e: seq<T>)
    requires Unique(a + x + y + b + c + d + e)
    ensures Unique(a + y + b + c + d + e)
  {
    assert a + x + y + b + c + d + e == a + x + (y + b + c + d + e);
    UniqueDrop(a, x, y + b + c + d + e);
    assert a + (y + b + c + d + e) == a + y + b + c + d + e;
  }

  lemma NamesUnique(lib: Lib, name: string, tls: Tls, prom: Option<CaCert>)
    requires LibOk(lib)
    ensures Unique(Names(ServiceVolumes(lib, name, tls, prom)))
  {
    NamesOf(lib, name, tls, prom);
    var ca, ci, cp := [lib.caVolume], [lib.certVolume(Internal)], [lib.certVolume(Public)];
    UniqueIfs(OwnNames(), tls.ca != "", ca, prom.Some?, [PROM_CA], tls.Enabled(Internal), ci, tls.Enabled(Public), cp);
    var own := [CONFIG, LOGS, CUSTOM];
    assert OwnNames() == own + [SYNC, SCRIPTS] + [];
    DropFront(own, [SYNC, SCRIPTS], [], If(tls.ca != "", ca), If(prom.Some?, [PROM_CA]), If(tls.Enabled(Internal), ci),
              If(tls.Enabled(Public), cp));
    assert own + [] == own;
  }

  lemma OthersUnique(lib: Lib, tls: Tls)
    requires LibOk(lib)
    ensures Unique(OtherPaths(lib, tls))
  {
    var ca, ci, cp := If(tls.ca != "", lib.caPaths), If(tls.Enabled(Internal), lib.certPaths(Internal)),
                      If(tls.Enabled(Public), lib.certPaths(Public));
    var all := lib.caPaths + lib.certPaths(Internal) + lib.certPaths(Public);
    assert OwnPaths() + lib.caPaths + lib.certPaths(Internal) + lib.certPaths(Public) + [] ==
           OwnPaths() + lib.caPaths + lib.certPaths(Internal) + lib.certPaths(Public);
    UniqueIfs(OwnPaths(), tls.ca != "", lib.caPaths, tls.Enabled(Internal), lib.certPaths(Internal),
              tls.Enabled(Public), lib.certPaths(Public), false, []);
    var a, own := [DEFAULT_DIR, MY_CNF], [DEFAULT_DIR, MY_CNF, KOLLA, LOG_DIR];
    assert OwnPaths() == a + [CONF_DIR] + [KOLLA, LOG_DIR, BIN_DIR];
    DropFront(a, [CONF_DIR], [KOLLA, LOG_DIR, BIN_DIR], ca, ci, cp, []);
    assert a + [KOLLA, LOG_DIR, BIN_DIR] == own + [BIN_DIR] + [];
    DropFront(own, [BIN_DIR], [], ca, ci, cp, []);
    assert own + [] + ca + ci + cp + [] == own + ca + ci + cp;
  }

  lemma DropMiddle<T>(a: seq<T>, x: seq<T>, b: seq<T>, y: seq<T>, c: seq<T>)
    requires Unique(a + x + b + y + c)
    ensures Unique(a + b + c)
  {
    assert a + x + b + y + c == a + x + (b + y + c);
    UniqueDrop(a, x, b + y + c);
    assert a + (b + y + c) == (a + b) + y + c;
    UniqueDrop(a + b, y, c);
  }

  lemma MountsDeclared(lib: Lib, name: string, component: string, tls: Tls, prom: Option<CaCert>)
    ensures Declared(ServiceVolumes(lib, name, tls, prom), ServiceMounts(lib, component, tls, prom))
  {
    NamesOf(lib, name, tls, prom);
    assert forall m | m in ServiceMounts(lib, component, tls, prom) :: m.name in ServiceNames(lib, tls, prom);
  }

  lemma PathsUniqueIff(lib: Lib, component: string, tls: Tls, prom: Option<CaCert>)
    requires LibOk(lib)
    ensures Unique(Paths(ServiceMounts(lib, component, tls, prom))) <==>
              (prom.Some? ==> Join(PROM_DIR, prom.value.key) !in OtherPaths(lib, tls))
  {
    PathsOf(lib, component, tls, prom);
    OthersUnique(lib, tls);
    var a := [DEFAULT_DIR, MY_CNF, KOLLA, LOG_DIR] + If(tls.ca != "", lib.caPaths);
    var ci, cp := If(tls.Enabled(Internal), lib.certPaths(Internal)), If(tls.Enabled(Public), lib.certPaths(Public));
    Between(a, prom.Some?, if prom.Some? then Join(PROM_DIR, prom.value.key) else [], ci, cp);
  }

  lemma Between<T>(a: seq<T>, on: bool, x: T, b: seq<T>, c: seq<T>)
    requires Unique(a + b + c)
    ensures Unique(a + (if on then [x] else []) + b + c) <==> (on ==> x !in a + b + c)
  {
    assert a + b + c == a + (b + c);
    if on {
      UniqueInsert(a, x, b + c);
      assert a + [x] + b + c == a + [x] + (b + c);
    } else {
      assert a + [] + b + c == a + b + c;
    }
  }

  /** A service pod is well formed exactly when the Prometheus CA, if there is one, is not mounted over
      another path. */
  lemma ServiceWellFormedIff(lib: Lib, name: string, component: string, tls: Tls, prom: Option<CaCert>)
    requires LibOk(lib)
    ensures WellFormed(ServiceVolumes(lib, name, tls, prom), ServiceMounts(lib, component, tls, prom)) <==>
              (prom.Some? ==> Join(PROM_DIR, prom.value.key) !in OtherPaths(lib, tls))
  {
    NamesUnique(lib, name, tls, prom);
    MountsDeclared(lib, name, component, tls, prom);
    PathsUniqueIff(lib, component, tls, prom);
  }

  lemma PromDirIsItsOwn(lib: Lib, tls: Tls, p: Path)
    requires LibOk(lib) && PROM_DIR <= p
    ensures p !in OtherPaths(lib, tls)
  {
    assert |p| >= 6;
    assert p !in [DEFAULT_DIR, MY_CNF, KOLLA, LOG_DIR];
    var others := lib.caPaths + lib.certPaths(Internal) + lib.certPaths(Public);
    assert forall q | q in OtherPaths(lib, tls) :: q in [DEFAULT_DIR, MY_CNF, KOLLA, LOG_DIR] || q in others;
  }

  /** In particular for every key that is a file name, as Kubernetes requires of secret keys. */
  lemma PlainKeyWellFormed(lib: Lib, name: string, component: string, tls: Tls, prom: Option<CaCert>)
    requires LibOk(lib) && (prom.Some? ==> Plain(prom.value.key))
    ensures WellFormed(ServiceVolumes(lib, name, tls, prom), ServiceMounts(lib, component, tls, prom))
  {
    ServiceWellFormedIff(lib, name, component, tls, prom);
    if prom.Some? {
      JoinPlain(PROM_DIR, prom.value.key);
      PromDirIsItsOwn(lib, tls, PROM_DIR + [prom.value.key]);
    }
  }

  lemma ClimbOne(base: Path, file: string)
    requires base != [] && Plain(file)
    ensures Join(base, "../" + file) == base[..|base| - 1] + [file]
  {
    var key := "../" + file;
    SplitPlain(file);
    assert key[3..] == file && key[2..][1..] == key[3..] && key[1..][1..] == key[2..];
    assert key[0] == '.' && key[1] == '.' && key[2] == '/';
    assert Split(key[2..]) == [""] + [file];
    assert ['.'] + Split(key[2..])[0] == ".";
    assert Split(key[1..]) == ["."] + [file];
    assert ['.'] + Split(key[1..])[0] == "..";
    assert Split(key) == [".."] + [file];
    assert Split(key)[1..] == [file];
    var up := base[..|base| - 1];
    assert Clean(base, Split(key)) == Clean(up, [file]);
    assert Clean(up, [file]) == Clean(up + [file], [file][1..]);
  }

  /** A key that climbs out of its directory can land on another mount. */
  lemma ClimbingKeyClashes(lib: Lib, name: string, component: string, tls: Tls, file: string)
    requires LibOk(lib) && tls.ca != "" && Plain(file) && PROM_DIR[..5] + [file] in lib.caPaths
    ensures var prom := Some(CaCert("prom-ca", "../" + file));
      !WellFormed(ServiceVolumes(lib, name, tls, prom), ServiceMounts(lib, component, tls, prom))
  {
    ServiceWellFormedIff(lib, name, component, tls, Some(CaCert("prom-ca", "../" + file)));
    ClimbOne(PROM_DIR, file);
    assert PROM_DIR[..|PROM_DIR| - 1] == PROM_DIR[..5];
    assert forall p | p in lib.caPaths :: p in OtherPaths(lib, tls);
  }

  lemma PurgeNames(lib: Lib, name: string, ca: string)
    requires LibOk(lib)
    ensures Unique(Names(PurgeVolumes(lib, name, ca)))
    ensures Unique(Names(SyncVolumes(lib, name, ca)))
  {
    assert Names(PurgeVolumes(lib, name, ca)) == [CONFIG, CUSTOM, SCRIPTS] + If(ca != "", [lib.caVolume]);
    assert Names(SyncVolumes(lib, name, ca)) == [CONFIG, SYNC] + If(ca != "", [lib.caVolume]);
    var some := If(ca != "", [lib.caVolume]);
    UniqueIfs(OwnNames(), ca != "", [lib.caVolume], false, [PROM_CA], false, [lib.certVolume(Internal)], false,
              [lib.certVolume(Public)]);
    assert OwnNames() + some + [] + [] + [] == OwnNames() + some;
    assert OwnNames() + some == [CONFIG] + [LOGS] + [CUSTOM] + [SYNC] + ([SCRIPTS] + some);
    DropMiddle([CONFIG], [LOGS], [CUSTOM], [SYNC], [SCRIPTS] + some);
    assert [CONFIG] + [CUSTOM] + ([SCRIPTS] + some) == [CONFIG, CUSTOM, SCRIPTS] + some;
    assert OwnNames() + some == [CONFIG] + [LOGS, CUSTOM] + [SYNC] + [SCRIPTS] + some;
    DropMiddle([CONFIG], [LOGS, CUSTOM], [SYNC], [SCRIPTS], some);
    assert [CONFIG] + [SYNC] + some == [CONFIG, SYNC] + some;
  }

  lemma JobPaths(lib: Lib, ca: string)
    requires LibOk(lib)
    ensures Unique(Paths(PurgeMounts(lib, ca))) && Unique(Paths(SyncMounts(lib, ca)))
  {
    PathsAt(lib.caVolume, lib.caPaths);
    var some := If(ca != "", lib.caPaths);
    assert Paths(PurgeMounts(lib, ca)) == [DEFAULT_DIR, MY_CNF, KOLLA, BIN_DIR] + some;
    assert Paths(SyncMounts(lib, ca)) == [DEFAULT_DIR, MY_CNF, CONF_DIR, KOLLA] + some;
    UniqueIfs(OwnPaths(), ca != "", lib.caPaths, false, lib.certPaths(Internal), false, lib.certPaths(Public), false, []);
    assert OwnPaths() + some + [] + [] + [] == OwnPaths() + some;
    assert OwnPaths() + some == [DEFAULT_DIR, MY_CNF] + [CONF_DIR] + [KOLLA] + [LOG_DIR] + ([BIN_DIR] + some);
    DropMiddle([DEFAULT_DIR, MY_CNF], [CONF_DIR], [KOLLA], [LOG_DIR], [BIN_DIR] + some);
    assert [DEFAULT_DIR, MY_CNF] + [KOLLA] + ([BIN_DIR] + some) == [DEFAULT_DIR, MY_CNF, KOLLA, BIN_DIR] + some;
    assert OwnPaths() + some == [DEFAULT_DIR, MY_CNF, CONF_DIR, KOLLA] + [LOG_DIR, BIN_DIR] + some;
    UniqueDrop([DEFAULT_DIR, MY_CNF, CONF_DIR, KOLLA], [LOG_DIR, BIN_DIR], some);
  }

  /** The purge job's and the dbsync job's pods are always well formed. */
  lemma JobsWellFormed(lib: Lib, name: string, ca: string)
    requires LibOk(lib)
    ensures WellFormed(PurgeVolumes(lib, name, ca), PurgeMounts(lib, ca))
    ensures WellFormed(SyncVolumes(lib, name, ca), SyncMounts(lib, ca))
  {
    PurgeNames(lib, name, ca);
    JobPaths(lib, ca);
    JobsDeclared(lib, name, ca);
  }

  lemma JobsDeclared(lib: Lib, name: string, ca: string)
    ensures Declared(PurgeVolumes(lib, name, ca), PurgeMounts(lib, ca))
    ensures Declared(SyncVolumes(lib, name, ca), SyncMounts(lib, ca))
  {
    assert Names(PurgeVolumes(lib, name, ca)) == [CONFIG, CUSTOM, SCRIPTS] + If(ca != "", [lib.caVolume]);
    assert Names(SyncVolumes(lib, name, ca)) == [CONFIG, SYNC] + If(ca != "", [lib.caVolume]);
  }

  // Agreement with the rendered configuration and with the published URLs

  lemma LibNamesDiffer(lib: Lib)
    requires LibOk(lib)
    ensures lib.certVolume(Internal) != lib.certVolume(Public)
    ensures lib.certVolume(Internal) !in {CONFIG, LOGS, CUSTOM, PROM_CA, lib.caVolume}
    ensures lib.certVolume(Public) !in {CONFIG, LOGS, CUSTOM, PROM_CA, lib.caVolume}
    ensures PROM_CA !in {CONFIG, LOGS, CUSTOM, lib.caVolume}
  {
    var all := OwnNames() + [lib.caVolume] + [PROM_CA] + [lib.certVolume(Internal)] + [lib.certVolume(Public)];
    assert all[0] == CONFIG && all[1] == LOGS && all[2] == CUSTOM && all[5] == lib.caVolume && all[6] == PROM_CA;
    assert all[7] == lib.certVolume(Internal) && all[8] == lib.certVolume(Public);
  }

  /** How a URL's scheme follows the protocol it is built with. */
  const SCHEME: UrlRule := (svc, override, https) => Some(if https then "https" else "http")

  /** For each endpoint: the virtual host has a certificate, the pod has its volume, the pod has its
      mounts, and the URL is built for https, all exactly when TLS is on for that endpoint. */
  lemma TlsAgrees(lib: Lib, name: string, namespace: string, s: SubSpec, prom: Option<CaCert>, e: Endpoint)
    requires LibOk(lib) && lib.certPaths(e) != []
    ensures var on, host := s.tls.Enabled(e), VHostFor(s.tls, namespace, e);
      && (host.certificate.Some? <==> on) && (host.key.Some? <==> on)
      && (lib.certVolume(e) in Names(ServiceVolumes(lib, name, s.tls, prom)) <==> on)
      && ((exists m :: m in ServiceMounts(lib, "watcher-api", s.tls, prom) && m.name == lib.certVolume(e)) <==> on)
      && ExposePort(s, e, Patched, SCHEME) == Exposed(if on then "https" else "http")
  {
    CertVolumeIff(lib, name, s.tls, prom, e);
    if s.tls.Enabled(e) {
      SomeCertMount(lib, s.tls, prom, e);
    } else {
      NoCertMounts(lib, s.tls, prom, e);
    }
  }

  lemma CertVolumeIff(lib: Lib, name: string, tls: Tls, prom: Option<CaCert>, e: Endpoint)
    requires LibOk(lib)
    ensures lib.certVolume(e) in Names(ServiceVolumes(lib, name, tls, prom)) <==> tls.Enabled(e)
  {
    LibNamesDiffer(lib);
    NamesOf(lib, name, tls, prom);
  }

  lemma SomeCertMount(lib: Lib, tls: Tls, prom: Option<CaCert>, e: Endpoint)
    requires tls.Enabled(e) && lib.certPaths(e) != []
    ensures exists m :: m in ServiceMounts(lib, "watcher-api", tls, prom) && m.name == lib.certVolume(e)
  {
    var m := MountsAt(lib.certVolume(e), lib.certPaths(e))[0];
    assert m in CertMounts(lib, tls, e);
    assert m in ServiceMounts(lib, "watcher-api", tls, prom) && m.name == lib.certVolume(e);
  }

  lemma NoCertMounts(lib: Lib, tls: Tls, prom: Option<CaCert>, e: Endpoint)
    requires LibOk(lib) && !tls.Enabled(e)
    ensures forall m | m in ServiceMounts(lib, "watcher-api", tls, prom) :: m.name != lib.certVolume(e)
  {
    LibNamesDiffer(lib);
    var other := if e.Public? then Internal else Public;
    assert forall m | m in CertMounts(lib, tls, other) :: m.name == lib.certVolume(other);
    assert forall m | m in PlainMounts("watcher-api") :: m.name in {CONFIG, LOGS};
  }

  /** The CA path parameter of the rendered configuration; it is empty, here None, without a CA. */
  method PrometheusCaPath(data: map<string, string>) returns (path: Option<Path>)
    ensures path.Some? <==> CaOf(data).Some?
    ensures path.Some? ==> path.value == Join(PROM_DIR, CaOf(data).value.key)
  {
    var secret := if PROM_CA_SECRET in data then data[PROM_CA_SECRET] else "";
    var key := if PROM_CA_KEY in data then data[PROM_CA_KEY] else "";
    path := None;
    if secret != "" && key != "" {
      path := Some(Join(PROM_DIR, key));
    }
  }

  /** The rendered CA path and the mounted one: there is one exactly when there is the other, and then
      they are the same. */
  lemma CaPathAgrees(lib: Lib, component: string, tls: Tls, data: map<string, string>, path: Option<Path>)
    requires LibOk(lib)
    requires (path.Some? <==> CaOf(data).Some?) && (path.Some? ==> path.value == Join(PROM_DIR, CaOf(data).value.key))
    ensures forall p :: path == Some(p) <==>
              exists m :: m in ServiceMounts(lib, component, tls, CaOf(data)) && m.name == PROM_CA && m.path == p
  {
    LibNamesDiffer(lib);
    var mounts := ServiceMounts(lib, component, tls, CaOf(data));
    assert forall m | m in PlainMounts(component) :: m.name in {CONFIG, LOGS};
    assert forall m | m in mounts && m.name == PROM_CA :: m in PromMounts(CaOf(data));
    if path.Some? {
      assert PromMounts(CaOf(data))[0] in mounts;
    }
  }
}
