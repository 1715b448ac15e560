/** What a container finds: for every path, the secret and key behind it, from volumes and mounts
    together. */
module PodContents {
  import opened Base
  import opened Resources
  import opened Secrets
  import opened Endpoints
  import opened Pods
  import opened ServicePods

  /** At path p the container finds this key of the secret, or all of it when the key is "". */
  ghost predicate Finds(vs: seq<Volume>, ms: seq<Mount>, p: Path, secret: string, key: string) {
    exists m, v :: m in ms && v in vs && m.path == p && m.name == v.name && v.secret == Some(secret) && m.subPath == key
  }

  lemma MountsIn(name: string, paths: seq<Path>, m: Mount)
    ensures m in MountsAt(name, paths) <==> m.name == name && m.path in paths && m.subPath == ""
  {
    if m.path in paths {
      var i :| 0 <= i < |paths| && paths[i] == m.path;
      assert MountsAt(name, paths)[i] == Mount(name, m.path, "");
    }
  }

  predicate IsVolume(lib: Lib, name: string, tls: Tls, prom: Option<CaCert>, v: Volume) {
    || v == Volume("config-data", Some(name + "-config-data")) || v == Volume("logs", None)
    || v == Volume("config-data-custom", Some(name + "-config-data"))
    || (tls.ca != "" && v == Volume(lib.caVolume, Some(tls.ca)))
    || (prom.Some? && v == Volume("custom-prometheus-ca", Some(prom.value.secret)))
    || (tls.Enabled(Internal) && v == Volume(lib.certVolume(Internal), tls.internal))
    || (tls.Enabled(Public) && v == Volume(lib.certVolume(Public), tls.public))
  }

  predicate IsMount(lib: Lib, component: string, tls: Tls, prom: Option<CaCert>, m: Mount) {
    || m == Mount("config-data", ["var", "lib", "config-data", "default"], "")
    || m == Mount("config-data", ["etc", "my.cnf"], "my.cnf")
    || m == Mount("config-data", ["var", "lib", "kolla", "config_files", "config.json"], component + "-config.json")
    || m == Mount("logs", ["var", "log", "watcher"], "")
    || (tls.ca != "" && m.name == lib.caVolume && m.path in lib.caPaths && m.subPath == "")
    || (prom.Some? && m == Mount("custom-prometheus-ca", Join(PROM_DIR, prom.value.key), prom.value.key))
    || (tls.Enabled(Internal) && m.name == lib.certVolume(Internal) && m.path in lib.certPaths(Internal) && m.subPath == "")
    || (tls.Enabled(Public) && m.name == lib.certVolume(Public) && m.path in lib.certPaths(Public) && m.subPath == "")
  }

  lemma ServiceVolumeIn(lib: Lib, name: string, tls: Tls, prom: Option<CaCert>, v: Volume)
    ensures v in ServiceVolumes(lib, name, tls, prom) <==> IsVolume(lib, name, tls, prom, v)
  {
    assert v in ServiceVolumes(lib, name, tls, prom) <==>
      || v in PlainVolumes(lib, name) || v in CaVolumes(lib, tls) || v in PromVolumes(prom)
      || v in CertVolumes(lib, tls, Internal) || v in CertVolumes(lib, tls, Public);
    assert PlainVolumes(lib, name) ==
      [Volume("config-data", Some(name + "-config-data")), Volume("logs", None),
       Volume("config-data-custom", Some(name + "-config-data"))];
  }

  lemma ServiceMountIn(lib: Lib, component: string, tls: Tls, prom: Option<CaCert>, m: Mount)
    ensures m in ServiceMounts(lib, component, tls, prom) <==> IsMount(lib, component, tls, prom, m)
  {
    assert m in ServiceMounts(lib, component, tls, prom) <==>
      || m in PlainMounts(component) || m in CaMounts(lib, tls) || m in PromMounts(prom)
      || m in CertMounts(lib, tls, Internal) || m in CertMounts(lib, tls, Public);
    MountsIn(lib.caVolume, lib.caPaths, m);
    MountsIn(lib.certVolume(Internal), lib.certPaths(Internal), m);
    MountsIn(lib.certVolume(Public), lib.certPaths(Public), m);
  }

  /** What a service pod is meant to find. */
  predicate Meant(lib: Lib, name: string, component: string, tls: Tls, prom: Option<CaCert>, p: Path, secret: string, key: string) {
    || (secret == name + "-config-data" &&
        (|| (p == ["var", "lib", "config-data", "default"] && key == "")
         || (p == ["etc", "my.cnf"] && key == "my.cnf")
         || (p == ["var", "lib", "kolla", "config_files", "config.json"] && key == component + "-config.json")))
    || (tls.ca != "" && secret == tls.ca && p in lib.caPaths && key == "")
    || (prom.Some? && secret == prom.value.secret && p == Join(PROM_DIR, prom.value.key) && key == prom.value.key)
    || (tls.Enabled(Internal) && Some(secret) == tls.internal && p in lib.certPaths(Internal) && key == "")
    || (tls.Enabled(Public) && Some(secret) == tls.public && p in lib.certPaths(Public) && key == "")
  }

  function VolumeNames(lib: Lib): seq<string> {
    ["config-data", "logs", "config-data-custom", lib.caVolume, "custom-prometheus-ca", lib.certVolume(Internal),
     lib.certVolume(Public)]
  }

  lemma NamesApart(lib: Lib)
    requires LibOk(lib)
    ensures Unique(VolumeNames(lib))
  {
    var all := OwnNames() + [lib.caVolume] + [PROM_CA] + [lib.certVolume(Internal)] + [lib.certVolume(Public)];
    var some := VolumeNames(lib);
    assert forall i | 0 <= i < 7 :: some[i] == all[if i < 3 then i else i + 2];
  }

  lemma Through(lib: Lib, name: string, component: string, tls: Tls, prom: Option<CaCert>, m: Mount, v: Volume)
    requires Unique(VolumeNames(lib))
    requires IsVolume(lib, name, tls, prom, v) && IsMount(lib, component, tls, prom, m) && m.name == v.name && v.secret.Some?
    ensures Meant(lib, name, component, tls, prom, m.path, v.secret.value, m.subPath)
  {
    var some := VolumeNames(lib);
    assert some[0] == "config-data" && some[1] == "logs" && some[2] == "config-data-custom" && some[3] == lib.caVolume
        && some[4] == "custom-prometheus-ca" && some[5] == lib.certVolume(Internal) && some[6] == lib.certVolume(Public);
  }

  /** A service pod finds its rendered configuration, its my.cnf and its own start file, the CA bundle, the
      Prometheus CA and each endpoint's own certificate, each exactly where it is meant to be and nothing
      else anywhere. */
  lemma ServiceFinds(lib: Lib, name: string, component: string, tls: Tls, prom: Option<CaCert>, p: Path,
                     secret: string, key: string)
    requires LibOk(lib)
    ensures Finds(ServiceVolumes(lib, name, tls, prom), ServiceMounts(lib, component, tls, prom), p, secret, key) <==>
            Meant(lib, name, component, tls, prom, p, secret, key)
  {
    var vs, ms := ServiceVolumes(lib, name, tls, prom), ServiceMounts(lib, component, tls, prom);
    if Finds(vs, ms, p, secret, key) {
      var m, v :| m in ms && v in vs && m.path == p && m.name == v.name && v.secret == Some(secret) && m.subPath == key;
      ServiceVolumeIn(lib, name, tls, prom, v);
      ServiceMountIn(lib, component, tls, prom, m);
      NamesApart(lib);
      Through(lib, name, component, tls, prom, m, v);
    } else {
      NotByService(lib, name, component, tls, prom, p, secret, key);
    }
  }

  lemma NotByService(lib: Lib, name: string, component: string, tls: Tls, prom: Option<CaCert>, p: Path,
                     secret: string, key: string)
    requires !Finds(ServiceVolumes(lib, name, tls, prom), ServiceMounts(lib, component, tls, prom), p, secret, key)
    ensures !Meant(lib, name, component, tls, prom, p, secret, key)
  {
    NotThrough(lib, name, component, tls, prom, "config-data", p, secret, key);
    NotThrough(lib, name, component, tls, prom, lib.caVolume, p, secret, key);
    NotThrough(lib, name, component, tls, prom, PROM_CA, p, secret, key);
    NotThrough(lib, name, component, tls, prom, lib.certVolume(Internal), p, secret, key);
    NotThrough(lib, name, component, tls, prom, lib.certVolume(Public), p, secret, key);
  }

  lemma NotThrough(lib: Lib, name: string, component: string, tls: Tls, prom: Option<CaCert>, volume: string,
                   p: Path, secret: string, key: string)
    requires !Finds(ServiceVolumes(lib, name, tls, prom), ServiceMounts(lib, component, tls, prom), p, secret, key)
    ensures !(IsVolume(lib, name, tls, prom, Volume(volume, Some(secret))) &&
              IsMount(lib, component, tls, prom, Mount(volume, p, key)))
  {
    ServiceVolumeIn(lib, name, tls, prom, Volume(volume, Some(secret)));
    ServiceMountIn(lib, component, tls, prom, Mount(volume, p, key));
  }

  // Jobs

  lemma PurgeVolumeIn(lib: Lib, name: string, ca: string, v: Volume)
    ensures v in PurgeVolumes(lib, name, ca) <==>
      || v == Volume("config-data", Some(name + "-config-data")) || v == Volume("config-data-custom", Some(name + "-config-data"))
      || v == Volume("scripts-volume", Some(name + "-scripts")) || (ca != "" && v == Volume(lib.caVolume, Some(ca)))
  {
    assert PurgeVolumes(lib, name, ca) ==
      [Volume("config-data", Some(name + "-config-data")), Volume("config-data-custom", Some(name + "-config-data")),
       Volume("scripts-volume", Some(name + "-scripts"))] + If(ca != "", [Volume(lib.caVolume, Some(ca))]);
  }

  lemma SyncVolumeIn(lib: Lib, name: string, ca: string, v: Volume)
    ensures v in SyncVolumes(lib, name, ca) <==>
      || v == Volume("config-data", Some(name + "-config-data")) || v == Volume("db-sync-config-data", Some(name + "-config-data"))
      || (ca != "" && v == Volume(lib.caVolume, Some(ca)))
  {
    assert SyncVolumes(lib, name, ca) ==
      [Volume("config-data", Some(name + "-config-data")), Volume("db-sync-config-data", Some(name + "-config-data"))]
      + If(ca != "", [Volume(lib.caVolume, Some(ca))]);
  }

  lemma PurgeMountIn(lib: Lib, ca: string, m: Mount)
    ensures m in PurgeMounts(lib, ca) <==>
      || m == Mount("config-data", ["var", "lib", "config-data", "default"], "")
      || m == Mount("config-data", ["etc", "my.cnf"], "my.cnf")
      || m == Mount("config-data", ["var", "lib", "kolla", "config_files", "config.json"], "watcher-dbpurge" + "-config.json")
      || m == Mount("scripts-volume", ["var", "lib", "openstack", "bin"], "")
      || (ca != "" && m.name == lib.caVolume && m.path in lib.caPaths && m.subPath == "")
  {
    MountsIn(lib.caVolume, lib.caPaths, m);
    assert PurgeMounts(lib, ca) ==
      [Mount("config-data", ["var", "lib", "config-data", "default"], ""), Mount("config-data", ["etc", "my.cnf"], "my.cnf"),
       Mount("config-data", ["var", "lib", "kolla", "config_files", "config.json"], "watcher-dbpurge" + "-config.json"),
       Mount("scripts-volume", ["var", "lib", "openstack", "bin"], "")] + If(ca != "", MountsAt(lib.caVolume, lib.caPaths));
  }

  lemma SyncMountIn(lib: Lib, ca: string, m: Mount)
    ensures m in SyncMounts(lib, ca) <==>
      || m == Mount("config-data", ["var", "lib", "config-data", "default"], "")
      || m == Mount("config-data", ["etc", "my.cnf"], "my.cnf")
      || m == Mount("db-sync-config-data", ["etc", "watcher", "watcher.conf.d"], "")
      || m == Mount("config-data", ["var", "lib", "kolla", "config_files", "config.json"], "watcher-dbsync-config.json")
      || (ca != "" && m.name == lib.caVolume && m.path in lib.caPaths && m.subPath == "")
  {
    MountsIn(lib.caVolume, lib.caPaths, m);
    assert SyncMounts(lib, ca) ==
      [Mount("config-data", ["var", "lib", "config-data", "default"], ""), Mount("config-data", ["etc", "my.cnf"], "my.cnf"),
       Mount("db-sync-config-data", ["etc", "watcher", "watcher.conf.d"], ""),
       Mount("config-data", ["var", "lib", "kolla", "config_files", "config.json"], "watcher-dbsync-config.json")]
      + If(ca != "", MountsAt(lib.caVolume, lib.caPaths));
  }

  /** What a job's pod is meant to find: the configuration with the job's own start file, the CA bundle,
      and one directory of its own. */
  predicate JobMeant(lib: Lib, name: string, start: string, own: Path, ownSecret: string, ca: string, p: Path,
                     secret: string, key: string) {
    || (secret == name + "-config-data" &&
        (|| (p == ["var", "lib", "config-data", "default"] && key == "")
         || (p == ["etc", "my.cnf"] && key == "my.cnf")
         || (p == ["var", "lib", "kolla", "config_files", "config.json"] && key == start)))
    || (p == own && secret == ownSecret && key == "")
    || (ca != "" && secret == ca && p in lib.caPaths && key == "")
  }

  lemma CaNameDiffers(lib: Lib)
    requires LibOk(lib)
    ensures lib.caVolume !in {"config-data", "config-data-custom", "scripts-volume", "db-sync-config-data"}
  {
    var all := OwnNames() + [lib.caVolume] + [PROM_CA] + [lib.certVolume(Internal)] + [lib.certVolume(Public)];
    assert all[0] == CONFIG && all[2] == CUSTOM && all[3] == SYNC && all[4] == SCRIPTS && all[5] == lib.caVolume;
  }

  /** The purge job finds its scripts, with its own start file. */
  lemma PurgeFinds(lib: Lib, name: string, ca: string, p: Path, secret: string, key: string)
    requires LibOk(lib)
    ensures Finds(PurgeVolumes(lib, name, ca), PurgeMounts(lib, ca), p, secret, key) <==>
            JobMeant(lib, name, "watcher-dbpurge" + "-config.json", ["var", "lib", "openstack", "bin"], name + "-scripts", ca,
                     p, secret, key)
  {
    var vs, ms := PurgeVolumes(lib, name, ca), PurgeMounts(lib, ca);
    CaNameDiffers(lib);
    if Finds(vs, ms, p, secret, key) {
      var m, v :| m in ms && v in vs && m.path == p && m.name == v.name && v.secret == Some(secret) && m.subPath == key;
      PurgeVolumeIn(lib, name, ca, v);
      PurgeMountIn(lib, ca, m);
    } else {
      NotByPurge(lib, name, ca, p, secret, key);
    }
  }

  lemma NotByPurge(lib: Lib, name: string, ca: string, p: Path, secret: string, key: string)
    requires !Finds(PurgeVolumes(lib, name, ca), PurgeMounts(lib, ca), p, secret, key)
    ensures !JobMeant(lib, name, "watcher-dbpurge" + "-config.json", ["var", "lib", "openstack", "bin"], name + "-scripts", ca,
                     p, secret, key)
  {
    PurgeVolumeIn(lib, name, ca, Volume("config-data", Some(secret)));
    PurgeMountIn(lib, ca, Mount("config-data", p, key));
    PurgeVolumeIn(lib, name, ca, Volume("scripts-volume", Some(secret)));
    PurgeMountIn(lib, ca, Mount("scripts-volume", p, key));
    PurgeVolumeIn(lib, name, ca, Volume(lib.caVolume, Some(secret)));
    PurgeMountIn(lib, ca, Mount(lib.caVolume, p, key));
  }

  /** The dbsync job finds the Watcher's configuration snippets, with its own start file. */
  lemma SyncFinds(lib: Lib, name: string, ca: string, p: Path, secret: string, key: string)
    requires LibOk(lib)
    ensures Finds(SyncVolumes(lib, name, ca), SyncMounts(lib, ca), p, secret, key) <==>
            JobMeant(lib, name, "watcher-dbsync-config.json", ["etc", "watcher", "watcher.conf.d"], name + "-config-data", ca,
                     p, secret, key)
  {
    var vs, ms := SyncVolumes(lib, name, ca), SyncMounts(lib, ca);
    CaNameDiffers(lib);
    if Finds(vs, ms, p, secret, key) {
      var m, v :| m in ms && v in vs && m.path == p && m.name == v.name && v.secret == Some(secret) && m.subPath == key;
      SyncVolumeIn(lib, name, ca, v);
      SyncMountIn(lib, ca, m);
    } else {
      NotBySync(lib, name, ca, p, secret, key);
    }
  }

  lemma NotBySync(lib: Lib, name: string, ca: string, p: Path, secret: string, key: string)
    requires !Finds(SyncVolumes(lib, name, ca), SyncMounts(lib, ca), p, secret, key)
    ensures !JobMeant(lib, name, "watcher-dbsync-config.json", ["etc", "watcher", "watcher.conf.d"], name + "-config-data", ca,
                     p, secret, key)
  {
    SyncVolumeIn(lib, name, ca, Volume("config-data", Some(secret)));
    SyncMountIn(lib, ca, Mount("config-data", p, key));
    SyncVolumeIn(lib, name, ca, Volume("db-sync-config-data", Some(secret)));
    SyncMountIn(lib, ca, Mount("db-sync-config-data", p, key));
    SyncVolumeIn(lib, name, ca, Volume(lib.caVolume, Some(secret)));
    SyncMountIn(lib, ca, Mount(lib.caVolume, p, key));
  }
}
