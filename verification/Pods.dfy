/** Volumes and mounts of every pod the operator defines. */
module Pods {
  import opened Base
  import opened Resources
  import opened Secrets
  import opened Endpoints

  // Paths

  /** An absolute path as its list of segments. */
  type Path = seq<string>

  function Split(s: string): (parts: seq<string>)
    ensures |parts| > 0
  {
    if s == "" then [""]
    else if s[0] == '/' then [""] + Split(s[1..])
    else
      var rest := Split(s[1..]);
      [[s[0]] + rest[0]] + rest[1..]
  }

  /** Lexical cleaning: empty and dot segments go, dot-dot goes up but not above the root. */
  function Clean(base: Path, parts: seq<string>): Path
    decreases |parts|
  {
    if parts == [] then base
    else if parts[0] == "" || parts[0] == "." then Clean(base, parts[1..])
    else if parts[0] == ".." then Clean(if base == [] then [] else base[..|base| - 1], parts[1..])
    else Clean(base + [parts[0]], parts[1..])
  }

  function Join(folder: Path, key: string): Path {
    Clean(folder, Split(key))
  }

  lemma {:induction false} SplitPlain(s: string)
    requires '/' !in s
    ensures Split(s) == [s]
  {
    if s != "" {
      assert s[0] != '/' && forall c | c in s[1..] :: c in s;
      SplitPlain(s[1..]);
      assert [s[0]] + s[1..] == s;
    }
  }

  /** A key without slashes and dots of its own is one more segment. */
  predicate Plain(key: string) {
    '/' !in key && key != "" && key != "." && key != ".."
  }

  lemma JoinPlain(folder: Path, key: string)
    requires Plain(key)
    ensures Join(folder, key) == folder + [key]
  {
    SplitPlain(key);
    assert Clean(folder + [key], [key][1..]) == folder + [key];
  }

  // Volumes

  datatype Volume = Volume(name: string, secret: Option<string>)

  datatype Mount = Mount(name: string, path: Path, subPath: string)

  function Names(vs: seq<Volume>): (ns: seq<string>)
    ensures |ns| == |vs| && forall i :: 0 <= i < |vs| ==> ns[i] == vs[i].name
  {
    seq(|vs|, i requires 0 <= i < |vs| => vs[i].name)
  }

  function Paths(ms: seq<Mount>): (ps: seq<Path>)
    ensures |ps| == |ms| && forall i :: 0 <= i < |ms| ==> ps[i] == ms[i].path
  {
    seq(|ms|, i requires 0 <= i < |ms| => ms[i].path)
  }

  ghost predicate Unique<T>(s: seq<T>) {
    forall i, j :: 0 <= i < j < |s| ==> s[i] != s[j]
  }

  predicate Declared(vs: seq<Volume>, ms: seq<Mount>) {
    forall m | m in ms :: m.name in Names(vs)
  }

  /** Volume names are unique, every mount names a volume, and mount paths are distinct. */
  ghost predicate WellFormed(vs: seq<Volume>, ms: seq<Mount>) {
    Unique(Names(vs)) && Declared(vs, ms) && Unique(Paths(ms))
  }

  // Printing an index

  function Digit(n: nat): char
    requires n < 10
  {
    "0123456789"[n]
  }

  function Itoa(n: nat): (s: string)
    ensures s != ""
  {
    if n < 10 then [Digit(n)] else Itoa(n / 10) + [Digit(n % 10)]
  }

  lemma {:induction false} ItoaInjective(m: nat, n: nat)
    requires Itoa(m) == Itoa(n)
    ensures m == n
    decreases m
  {
    assert Itoa(m)[|Itoa(m)| - 1] == Digit(m % 10) && Itoa(n)[|Itoa(n)| - 1] == Digit(n % 10);
    assert m % 10 == n % 10;
    if m >= 10 && n >= 10 {
      assert Itoa(m / 10) == Itoa(m)[..|Itoa(m)| - 1] == Itoa(n)[..|Itoa(n)| - 1] == Itoa(n / 10);
      ItoaInjective(m / 10, n / 10);
    }
  }

  // Secrets mounted as configuration

  const CONFIG := "config-data"

  function SecretPath(i: nat): Path {
    ["var", "lib", "config-data", "secret-" + Itoa(i)]
  }

  function SecretVolumes(secrets: seq<string>): seq<Volume> {
    seq(|secrets|, i requires 0 <= i < |secrets| => Volume(secrets[i], Some(secrets[i])))
  }

  function SecretMounts(secrets: seq<string>): seq<Mount> {
    seq(|secrets|, i requires 0 <= i < |secrets| => Mount(secrets[i], SecretPath(i), ""))
  }

  method GetConfigSecretVolumes(secrets: seq<string>) returns (volumes: seq<Volume>, mounts: seq<Mount>)
    ensures volumes == SecretVolumes(secrets) && mounts == SecretMounts(secrets)
    ensures |volumes| == |mounts| == |secrets|
    ensures forall i | 0 <= i < |secrets| :: volumes[i] == Volume(secrets[i], Some(secrets[i]))
    ensures forall i | 0 <= i < |secrets| :: mounts[i] == Mount(secrets[i], ["var", "lib", "config-data", "secret-" + Itoa(i)], "")
  {
    volumes, mounts := [], [];
    for i := 0 to |secrets|
      invariant volumes == SecretVolumes(secrets)[..i]
      invariant mounts == SecretMounts(secrets)[..i]
    {
      volumes := volumes + [Volume(secrets[i], Some(secrets[i]))];
      mounts := mounts + [Mount(secrets[i], ["var", "lib", "config-data", "secret-" + Itoa(i)], "")];
    }
  }

  function BaseVolumes(name: string, secrets: seq<string>): seq<Volume> {
    [Volume(CONFIG, Some(name + "-config-data"))] + SecretVolumes(secrets)
  }

  function BaseMounts(secrets: seq<string>): seq<Mount> {
    [Mount(CONFIG, ["var", "lib", "config-data", "default"], ""), Mount(CONFIG, ["etc", "my.cnf"], "my.cnf")]
    + SecretMounts(secrets)
  }

  method GetVolumes(name: string, secrets: seq<string>) returns (volumes: seq<Volume>)
    ensures volumes == BaseVolumes(name, secrets)
  {
    volumes := [Volume(CONFIG, Some(name + "-config-data"))];
    var more, _ := GetConfigSecretVolumes(secrets);
    volumes := volumes + more;
  }

  method GetVolumeMounts(secrets: seq<string>) returns (mounts: seq<Mount>)
    ensures mounts == BaseMounts(secrets)
  {
    mounts := [Mount(CONFIG, ["var", "lib", "config-data", "default"], ""), Mount(CONFIG, ["etc", "my.cnf"], "my.cnf")];
    var _, more := GetConfigSecretVolumes(secrets);
    mounts := mounts + more;
  }

  lemma SecretPathsDiffer(i: nat, j: nat)
    requires SecretPath(i) == SecretPath(j)
    ensures i == j
  {
    assert SecretPath(i)[3][7..] == Itoa(i) && SecretPath(j)[3][7..] == Itoa(j);
    ItoaInjective(i, j);
  }

  lemma UniqueCons<T>(x: T, s: seq<T>)
    ensures Unique([x] + s) <==> Unique(s) && x !in s
  {
    var xs := [x] + s;
    if Unique(xs) {
      forall i, j | 0 <= i < j < |s| ensures s[i] != s[j] {
        assert xs[i + 1] == s[i] && xs[j + 1] == s[j];
      }
      forall i | 0 <= i < |s| ensures s[i] != x {
        assert xs[0] == x && xs[i + 1] == s[i];
      }
    }
    if Unique(s) && x !in s {
      forall i, j | 0 <= i < j < |xs| ensures xs[i] != xs[j] {
        assert xs[j] == s[j - 1] && (i > 0 ==> xs[i] == s[i - 1]);
      }
    }
  }

  lemma ConfigNames(name: string, secrets: seq<string>)
    ensures Names(BaseVolumes(name, secrets)) == [CONFIG] + secrets
    ensures Unique([CONFIG] + secrets) <==> Unique(secrets) && CONFIG !in secrets
  {
    UniqueCons(CONFIG, secrets);
  }

  lemma ConfigPaths(secrets: seq<string>)
    ensures Unique(Paths(BaseMounts(secrets)))
  {
    var ps := Paths(BaseMounts(secrets));
    assert ps[0] == ["var", "lib", "config-data", "default"] && ps[1] == ["etc", "my.cnf"];
    assert forall i :: 2 <= i < |ps| ==> ps[i] == SecretPath(i - 2);
    forall i, j | 0 <= i < j < |ps| ensures ps[i] != ps[j] {
      if i >= 2 {
        if ps[i] == ps[j] {
          SecretPathsDiffer(i - 2, j - 2);
        }
      } else if i == 1 || j == 1 {
        assert |ps[1]| == 2 && |ps[if i == 1 then j else i]| == 4;
      } else {
        assert ps[0][3][0] == 'd' && ps[j][3][0] == 's';
      }
    }
  }

  lemma ConfigDeclared(name: string, secrets: seq<string>)
    ensures Declared(BaseVolumes(name, secrets), BaseMounts(secrets))
  {
    ConfigNames(name, secrets);
    var ms, ns := BaseMounts(secrets), [CONFIG] + secrets;
    forall m | m in ms ensures m.name in ns {
      var i :| 0 <= i < |ms| && ms[i] == m;
      assert m.name == ns[if i < 2 then 0 else i - 1];
    }
  }

  /** For a list of secrets of any length: volumes and mounts are well formed exactly when no secret is
      listed twice and none is called like the configuration volume. */
  lemma ConfigWellFormedIff(name: string, secrets: seq<string>)
    ensures WellFormed(BaseVolumes(name, secrets), BaseMounts(secrets)) <==> Unique(secrets) && CONFIG !in secrets
  {
    ConfigNames(name, secrets);
    ConfigPaths(secrets);
    ConfigDeclared(name, secrets);
  }
}
