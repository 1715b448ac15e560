/** What holds in every reachable cluster, over every schedule of passes, crashes, failed writes and
    environment moves. */
module Theorems {
  import opened Base
  import opened Conditions
  import opened Resources
  import opened Stages
  import opened World
  import opened Invariants
  import opened Frames
  import opened Safety
  import opened SafetyChild
  import opened SafetyTop
  import opened SafetyRuns

  function After(ls: seq<Label>): World {
    Run(EMPTY, ls)
  }

  lemma Snoc(w: World, ls: seq<Label>, l: Label)
    ensures Run(w, ls + [l]) == Apply(Run(w, ls), l)
  {
    assert (ls + [l])[..|ls|] == ls;
  }

  // Finalizers

  /** Register before acquire, release before unregister: a shared object carries a kind's finalizer
      only while that kind's CR is stored with its own finalizer. */
  lemma FinalizersAreAnchored(ls: seq<Label>, k: Kind, s: Shared)
    requires Careful(Fins, ls)
    ensures var w := After(ls);
      s in w.obj && Own(k) in w.obj[s].fins ==> k in w.cr && w.cr[k].own && s in Uses(k)
  {
    RunKeeps(Fins, ls);
    Mine(Fins, After(ls), k);
    assert s in After(ls).obj && Own(k) in After(ls).obj[s].fins ==> s in Held(After(ls), k);
  }

  /** When a step makes a CR leave the store, none of its finalizers is left on a shared object. */
  lemma NothingLeftBehind(ls: seq<Label>, l: Label, k: Kind)
    requires Careful(Fins, ls + [l])
    ensures var w, v := After(ls), After(ls + [l]);
      k in w.cr && k !in v.cr ==> forall s :: s in v.obj ==> Own(k) !in v.obj[s].fins
  {
    Snoc(EMPTY, ls, l);
    RunKeeps(Fins, ls + [l]);
    var v := After(ls + [l]);
    Mine(Fins, v, k);
    forall s | s in v.obj && Own(k) in v.obj[s].fins ensures s in Held(v, k) {}
  }

  /** A CR that is not being deleted and reports an input, Memcached or Keystone object ready has
      its finalizer on that object. */
  lemma InUseIsProtected(ls: seq<Label>, k: Kind)
    requires Careful(Shield, ls)
    ensures var w := After(ls);
      k in w.cr && !w.cr[k].deleting ==> Protected(k, w.cr[k].status.conds, Held(w, k))
  {
    RunKeeps(Shield, ls);
    Mine(Shield, After(ls), k);
  }

  /** The controller that takes a step. */
  function Actor(l: Label): Option<Kind> {
    match l
    case Start(k, _, _) => Some(k)
    case Crash(k) => Some(k)
    case WriteMeta(k, _) => Some(k)
    case WriteStatus(k, _, _) => Some(k)
    case ChildDoes(k, _) => Some(k)
    case WatcherDoes(_) => Some(Watcher)
    case ReleaseReads(k, _, _) => Some(k)
    case ReleaseWrites(k, _, _) => Some(k)
    case EnvDoes(_) => None
  }

  /** The finalizers an object carries; none when it is not stored. */
  function FinsOn(w: World, s: Shared): set<Finalizer> {
    if s in w.obj then w.obj[s].fins else {}
  }

  lemma SetFinsOn(w: World, s: Shared, deleting: bool, fins: set<Finalizer>, t: Shared)
    ensures FinsOn(SetFins(w, s, deleting, fins), t) == if t == s then fins else FinsOn(w, t)
  {}

  lemma AddOwnOn(w: World, k: Kind, s: Shared, wr: Write, t: Shared)
    requires k in w.pass && (w.pass[k].copy.Some? ==> CopyOk(w, s, w.pass[k].copy.value))
    ensures FinsOn(AddOwnTo(w, k, s, wr).0, t) - {Own(k)} == FinsOn(w, t) - {Own(k)}
  {}

  lemma RegisterOn(w: World, k: Kind, s: Shared, others: set<nat>, t: Shared)
    requires t != s
    ensures Register(w, k, s, others).Some? ==> FinsOn(Register(w, k, s, others).value, t) == FinsOn(w, t)
  {}

  lemma PublishOn(w: World, k: Kind, wr: Write, others: set<nat>, m: Option<State>, n: nat, t: Shared)
    requires t != KeystoneEndpoint
    ensures FinsOn(PublishPass(w, k, wr, others, m, n), t) == FinsOn(w, t)
  {
    RegisterOn(w, k, KeystoneEndpoint, others, t);
  }

  lemma KeystoneOn(w: World, wr: Write, others: set<nat>, m: Option<State>, t: Shared)
    requires t != KeystoneService
    ensures FinsOn(KeystonePass(w, wr, others, m), t) == FinsOn(w, t)
  {
    RegisterOn(w, Watcher, KeystoneService, others, t);
  }

  /** On the objects that are updated under version checks, a controller's step changes at most its
      own finalizer: no other kind's and no other operator's is ever lost. */
  lemma NoLostUpdate(ls: seq<Label>, l: Label, s: Shared)
    requires Actor(l).Some? && (s == Memcached || s == Prometheus)
    ensures FinsOn(After(ls + [l]), s) - {Own(Actor(l).value)} == FinsOn(After(ls), s) - {Own(Actor(l).value)}
  {
    Snoc(EMPTY, ls, l);
    RunKeeps(Core, ls);
    NoLostStep(After(ls), l, s);
  }

  /** Every pass that runs holds copies that are real. */
  ghost predicate RealCopies(w: World) {
    forall k :: k in w.pass ==> CopiesOk(w, w.pass[k])
  }

  lemma NoLostStep(w: World, l: Label, s: Shared)
    requires RealCopies(w) && Actor(l).Some? && (s == Memcached || s == Prometheus)
    ensures FinsOn(Apply(w, l), s) - {Own(Actor(l).value)} == FinsOn(w, s) - {Own(Actor(l).value)}
  {
    if l.ChildDoes? {
      NoLostChild(w, l.k, l.a, s);
    } else if l.WatcherDoes? {
      NoLostTop(w, l.t, s);
    } else if l.ReleaseWrites? {
      NoLostRelease(w, l.k, l.s, l.wr, s);
    } else {
      QuietObjects(w, l);
    }
  }

  lemma NoLostChild(w: World, k: Kind, a: ChildAct, s: Shared)
    requires RealCopies(w) && (s == Memcached || s == Prometheus)
    ensures FinsOn(ChildStep(w, k, a), s) - {Own(k)} == FinsOn(w, s) - {Own(k)}
  {
    if a.DoMemUpdate? {
      if At(w, k, MemUpdate) {
        assert CopiesOk(w, w.pass[k]);
        AddOwnOn(w, k, Memcached, a.wr, s);
      }
    } else if a.DoPublish? {
      PublishOn(w, k, a.wr, a.others, a.mirrored, a.requeue, s);
    } else {
      ChildObjects(w, k, a);
    }
  }

  lemma TopObjects(w: World, t: TopAct)
    requires !t.DoPromUpdate? && !t.DoKeystone?
    ensures TopStep(w, t).obj == w.obj
  {}

  lemma NoLostPrometheus(w: World, wr: Write, s: Shared)
    requires RealCopies(w)
    ensures FinsOn(UpdatePrometheus(w, wr), s) - {Own(Watcher)} == FinsOn(w, s) - {Own(Watcher)}
  {
    if At(w, Watcher, PromUpdate) {
      assert CopiesOk(w, w.pass[Watcher]);
      AddOwnOn(w, Watcher, Prometheus, wr, s);
    }
  }

  lemma NoLostTop(w: World, t: TopAct, s: Shared)
    requires RealCopies(w) && (s == Memcached || s == Prometheus)
    ensures FinsOn(TopStep(w, t), s) - {Own(Watcher)} == FinsOn(w, s) - {Own(Watcher)}
  {
    if t.DoPromUpdate? {
      NoLostPrometheus(w, t.wr, s);
    } else if t.DoKeystone? {
      KeystoneOn(w, t.wr, t.others, t.mirrored, s);
    } else {
      TopObjects(w, t);
    }
  }

  lemma NoLostRelease(w: World, k: Kind, t: Shared, wr: Write, s: Shared)
    requires RealCopies(w)
    ensures FinsOn(ReleaseUpdatePass(w, k, t, wr), s) - {Own(k)} == FinsOn(w, s) - {Own(k)}
  {
    ReleasedObjects(w, k, t, wr);
    if t in w.obj {
      SetFinsOn(w, t, w.obj[t].deleting, w.obj[t].fins - {Own(k)}, s);
    }
  }

  // The ledger

  /** The pass of kind k sends the copy it read back with finalizers fins, and the store takes it. */
  predicate Sends(w: World, k: Kind, s: Shared, pc: Pc, add: bool, applied: bool) {
    && k in w.pass && w.pass[k].pc == pc && w.pass[k].copy.Some? && applied
    && var copy := w.pass[k].copy.value;
       Accepts(w, s, copy, if add then copy.fins + {Own(k)} else copy.fins - {Own(k)})
  }

  /** In w, label l acquires s for kind k: an accepted update that adds the finalizer, or a
      create-or-patch that the store does not refuse. */
  predicate Acquires(w: World, l: Label, k: Kind, s: Shared) {
    match s
    case Memcached =>
      l.ChildDoes? && l.k == k && l.a.DoMemUpdate? && Sends(w, k, s, Working(MemUpdate), true, l.a.wr.applied)
    case Prometheus =>
      l.WatcherDoes? && k == Watcher && l.t.DoPromUpdate? && Sends(w, k, s, Working(PromUpdate), true, l.t.wr.applied)
    case KeystoneEndpoint =>
      l.ChildDoes? && l.k == k && l.a.DoPublish? && At(w, k, Publish) && l.a.wr.applied
      && Register(w, k, s, l.a.others).Some?
    case KeystoneService =>
      l.WatcherDoes? && k == Watcher && l.t.DoKeystone? && At(w, k, Keystone) && l.t.wr.applied
      && Register(w, k, s, l.t.others).Some?
  }

  predicate Releases(w: World, l: Label, k: Kind, s: Shared) {
    l.ReleaseWrites? && l.k == k && l.s == s && Sends(w, k, s, ReleaseUpdate(s), false, l.wr.applied)
  }

  /** Kind k acquired s and has not released it since. */
  predicate Holds(ls: seq<Label>, k: Kind, s: Shared) {
    if ls == [] then false
    else
      var w, l := After(ls[..|ls| - 1]), ls[|ls| - 1];
      Acquires(w, l, k, s) || (Holds(ls[..|ls| - 1], k, s) && !Releases(w, l, k, s))
  }

  /** No update is lost: at any moment a shared object carries exactly the finalizers of the kinds
      that acquired it and have not released it. */
  lemma {:induction false} Ledger(ls: seq<Label>, k: Kind, s: Shared)
    ensures Own(k) in FinsOn(After(ls), s) <==> Holds(ls, k, s)
  {
    if ls != [] {
      var us := ls[..|ls| - 1];
      Ledger(us, k, s);
      RunKeeps(Core, us);
      LedgerStep(After(us), ls[|ls| - 1], k, s);
    }
  }

  lemma LedgerStep(w: World, l: Label, k: Kind, s: Shared)
    requires RealCopies(w)
    ensures Own(k) in FinsOn(Apply(w, l), s) <==>
            Acquires(w, l, k, s) || (Own(k) in FinsOn(w, s) && !Releases(w, l, k, s))
  {
    if l.ChildDoes? {
      LedgerChild(w, l, k, s);
    } else if l.WatcherDoes? {
      LedgerTop(w, l, k, s);
    } else if l.ReleaseWrites? {
      LedgerRelease(w, l.k, l.s, l.wr, k, s);
    } else if l.EnvDoes? {
      LedgerEnv(w, l.e, k, s);
    } else {
      QuietObjects(w, l);
    }
  }

  lemma QuietObjects(w: World, l: Label)
    requires !l.ChildDoes? && !l.WatcherDoes? && !l.ReleaseWrites? && !l.EnvDoes?
    ensures Apply(w, l).obj == w.obj
  {}

  lemma LedgerAdd(w: World, j: Kind, t: Shared, wr: Write, pc: Pc, k: Kind, s: Shared)
    requires j in w.pass && w.pass[j].pc == pc && (w.pass[j].copy.Some? ==> CopyOk(w, t, w.pass[j].copy.value))
    ensures Own(k) in FinsOn(AddOwnTo(w, j, t, wr).0, s) <==>
            (k == j && s == t && Sends(w, j, t, pc, true, wr.applied)) || Own(k) in FinsOn(w, s)
  {}

  lemma LedgerRegister(w: World, j: Kind, t: Shared, others: set<nat>, k: Kind, s: Shared)
    requires Register(w, j, t, others).Some?
    ensures Own(k) in FinsOn(Register(w, j, t, others).value, s) <==> (k == j && s == t) || Own(k) in FinsOn(w, s)
  {
    if t in w.obj {
      var fins := Foreigners(others) + Owners(w.obj[t].fins) + {Own(j)};
      assert Own(k) in fins <==> k == j || Own(k) in w.obj[t].fins;
      SetFinsOn(w, t, false, fins, s);
    }
  }

  lemma LedgerMem(w: World, j: Kind, wr: Write, k: Kind, s: Shared)
    requires RealCopies(w)
    ensures Own(k) in FinsOn(UpdateMemcached(w, j, wr), s) <==>
            (k == j && s == Memcached && Sends(w, j, s, Working(MemUpdate), true, wr.applied)) || Own(k) in FinsOn(w, s)
  {
    if At(w, j, MemUpdate) {
      assert CopiesOk(w, w.pass[j]);
      LedgerAdd(w, j, Memcached, wr, Working(MemUpdate), k, s);
    }
  }

  lemma LedgerPrometheus(w: World, wr: Write, k: Kind, s: Shared)
    requires RealCopies(w)
    ensures Own(k) in FinsOn(UpdatePrometheus(w, wr), s) <==>
            (k == Watcher && s == Prometheus && Sends(w, k, s, Working(PromUpdate), true, wr.applied))
            || Own(k) in FinsOn(w, s)
  {
    if At(w, Watcher, PromUpdate) {
      assert CopiesOk(w, w.pass[Watcher]);
      LedgerAdd(w, Watcher, Prometheus, wr, Working(PromUpdate), k, s);
    }
  }

  lemma LedgerPublish(w: World, j: Kind, wr: Write, others: set<nat>, m: Option<State>, n: nat, k: Kind, s: Shared)
    ensures Own(k) in FinsOn(PublishPass(w, j, wr, others, m, n), s) <==>
            (k == j && s == KeystoneEndpoint && At(w, j, Publish) && wr.applied && Register(w, j, s, others).Some?)
            || Own(k) in FinsOn(w, s)
  {
    if Register(w, j, KeystoneEndpoint, others).Some? {
      LedgerRegister(w, j, KeystoneEndpoint, others, k, s);
    }
  }

  lemma LedgerKeystone(w: World, wr: Write, others: set<nat>, m: Option<State>, k: Kind, s: Shared)
    ensures Own(k) in FinsOn(KeystonePass(w, wr, others, m), s) <==>
            (k == Watcher && s == KeystoneService && At(w, k, Keystone) && wr.applied && Register(w, k, s, others).Some?)
            || Own(k) in FinsOn(w, s)
  {
    if Register(w, Watcher, KeystoneService, others).Some? {
      LedgerRegister(w, Watcher, KeystoneService, others, k, s);
    }
  }

  lemma ChildObjects(w: World, k: Kind, a: ChildAct)
    requires !a.DoMemUpdate? && !a.DoPublish?
    ensures ChildStep(w, k, a).obj == w.obj
  {}

  lemma LedgerChild(w: World, l: Label, k: Kind, s: Shared)
    requires RealCopies(w) && l.ChildDoes?
    ensures Own(k) in FinsOn(ChildStep(w, l.k, l.a), s) <==> Acquires(w, l, k, s) || Own(k) in FinsOn(w, s)
  {
    if l.a.DoMemUpdate? {
      LedgerMem(w, l.k, l.a.wr, k, s);
    } else if l.a.DoPublish? {
      LedgerPublish(w, l.k, l.a.wr, l.a.others, l.a.mirrored, l.a.requeue, k, s);
    } else {
      ChildObjects(w, l.k, l.a);
    }
  }

  lemma LedgerTop(w: World, l: Label, k: Kind, s: Shared)
    requires RealCopies(w) && l.WatcherDoes?
    ensures Own(k) in FinsOn(TopStep(w, l.t), s) <==> Acquires(w, l, k, s) || Own(k) in FinsOn(w, s)
  {
    if l.t.DoPromUpdate? {
      LedgerPrometheus(w, l.t.wr, k, s);
    } else if l.t.DoKeystone? {
      LedgerKeystone(w, l.t.wr, l.t.others, l.t.mirrored, k, s);
    } else {
      TopObjects(w, l.t);
    }
  }

  lemma ReleasedObjects(w: World, j: Kind, t: Shared, wr: Write)
    requires RealCopies(w)
    ensures ReleaseUpdatePass(w, j, t, wr).obj ==
            if Sends(w, j, t, ReleaseUpdate(t), false, wr.applied)
            then SetFins(w, t, w.obj[t].deleting, w.obj[t].fins - {Own(j)}).obj else w.obj
  {
    if j in w.pass {
      assert CopiesOk(w, w.pass[j]);
    }
  }

  lemma LedgerRelease(w: World, j: Kind, t: Shared, wr: Write, k: Kind, s: Shared)
    requires RealCopies(w)
    ensures Own(k) in FinsOn(ReleaseUpdatePass(w, j, t, wr), s) <==>
            Own(k) in FinsOn(w, s) && !(j == k && t == s && Sends(w, k, s, ReleaseUpdate(s), false, wr.applied))
  {
    ReleasedObjects(w, j, t, wr);
    if t in w.obj {
      SetFinsOn(w, t, w.obj[t].deleting, w.obj[t].fins - {Own(j)}, s);
    }
  }

  lemma LedgerForeign(w: World, s: Shared, deleting: bool, others: set<nat>, k: Kind, t: Shared)
    ensures var fins := Foreigners(others) + Owners(FinsOn(w, s));
      Own(k) in FinsOn(SetFins(w, s, deleting, fins), t) <==> Own(k) in FinsOn(w, t)
  {
    var fins := Foreigners(others) + Owners(FinsOn(w, s));
    assert Own(k) in fins <==> Own(k) in FinsOn(w, s);
    SetFinsOn(w, s, deleting, fins, t);
  }

  lemma LedgerEnv(w: World, e: EnvAct, k: Kind, s: Shared)
    ensures Own(k) in FinsOn(EnvStep(w, e), s) <==> Own(k) in FinsOn(w, s)
  {
    if e.ObjCreate? || e.ObjForeign? {
      LedgerForeign(w, e.s, e.s in w.obj && w.obj[e.s].deleting, e.others, k, s);
      assert e.s !in w.obj ==> Foreigners(e.others) + Owners(FinsOn(w, e.s)) == Foreigners(e.others);
    } else if e.ObjDelete? {
      SetFinsOn(w, e.s, true, FinsOn(w, e.s), s);
    } else {
      assert EnvStep(w, e).obj == w.obj;
    }
  }

  // Reads that mislead

  const ALL := {Memcached, Prometheus, KeystoneService, KeystoneEndpoint}

  /** The objects that a pass can still deal with before it gives up its CR's finalizer. */
  function Ahead(pc: Pc): set<Shared> {
    match pc
    case Release(s) => Left(s)
    case ReleaseUpdate(s) => Left(s)
    case Closing(meta, _, _) => if meta == DropOwn then {} else ALL
    case _ => ALL
  }

  /** Kind k's pass has gone past a shared object that still carries the kind's finalizer. */
  predicate LeavesBehind(w: World, k: Kind) {
    k in w.pass && !(Held(w, k) <= Ahead(w.pass[k].pc))
  }

  predicate GivesUp(w: World, k: Kind) {
    k in w.pass && w.pass[k].pc.Closing? && w.pass[k].pc.meta == DropOwn
  }

  /** From a cluster in order, a step makes a delete pass leave a finalizer behind exactly when it reads
      an object that carries the finalizer without learning of it: a failed read of the Prometheus
      secret, or a read that misses the own finalizer. Past the last object, the pass gives up its
      CR's finalizer with that very step. */
  lemma LeakIff(w: World, l: Label, k: Kind)
    requires Inv(Fins, w)
    ensures LeavesBehind(Apply(w, l), k) <==> Leaks(w, l) && l.k == k
    ensures GivesUp(Apply(w, l), k) && Held(Apply(w, l), k) != {} <==>
              Leaks(w, l) && l.k == k && (l.s == Memcached || l.s == Prometheus)
  {
    if Leaks(w, l) {
      LeakLands(w, l);
      if l.k != k {
        OrderlyPass(w, k);
      }
    } else {
      StepKeeps(Fins, w, l);
      OrderlyPass(Apply(w, l), k);
    }
  }

  lemma LeakLands(w: World, l: Label)
    requires Inv(Fins, w) && Leaks(w, l)
    ensures var v := Apply(w, l);
      && v == SetPass(w, l.k, Stopped(w.pass[l.k], AfterRelease(l.k, l.s))) && l.s in Held(v, l.k)
      && LeavesBehind(v, l.k) && (GivesUp(v, l.k) <==> l.s == Memcached || l.s == Prometheus)
      && forall k :: Held(v, k) == Held(w, k)
  {
    ObjRevs(w, Apply(w, l));
  }

  lemma OrderlyPass(w: World, k: Kind)
    requires Inv(Fins, w)
    ensures !LeavesBehind(w, k) && (GivesUp(w, k) ==> Held(w, k) == {})
  {
    Mine(Fins, w, k);
    forall s: Shared ensures s in ALL {
      match s case Memcached => case Prometheus => case KeystoneService => case KeystoneEndpoint =>
    }
  }

  /** So a finalizer without its CR, or without its CR's finalizer, always goes back to such a read. */
  lemma {:induction false} LeftoversComeFromLeaks(ls: seq<Label>, k: Kind, s: Shared)
    requires var w := After(ls);
      s in w.obj && Own(k) in w.obj[s].fins && (k in w.cr ==> !w.cr[k].own)
    ensures exists i :: 0 <= i < |ls| && Leaks(After(ls[..i]), ls[i])
  {
    if Careful(Fins, ls) {
      FinalizersAreAnchored(ls, k, s);
    } else {
      CarelessStep(ls);
    }
  }

  lemma {:induction false} CarelessStep(ls: seq<Label>)
    requires !Careful(Fins, ls)
    ensures exists i :: 0 <= i < |ls| && Leaks(After(ls[..i]), ls[i])
  {
    var us := ls[..|ls| - 1];
    if Careful(Fins, us) {
      assert Leaks(After(ls[..|us|]), ls[|us|]);
    } else {
      CarelessStep(us);
      var i :| 0 <= i < |us| && Leaks(After(us[..i]), us[i]);
      assert us[..i] == ls[..i];
    }
  }

  /** From a cluster in order, a step that misses nothing keeps everything in use protected exactly when
      no working pass goes on for a finalizer that is gone. */
  lemma ProtectionIff(w: World, l: Label)
    requires Inv(Shield, w) && !Leaks(w, l)
    ensures Inv(Shield, Apply(w, l)) <==> !Phantom(w, l)
  {
    if !Phantom(w, l) {
      StepKeeps(Shield, w, l);
    } else if l.ChildDoes? {
      PhantomMemBreaks(w, l.k, l.a.r, l.a.ready);
    } else {
      PhantomPromBreaks(w, l.t.main, l.t.url, l.t.prom, l.t.copy);
    }
  }

  lemma PhantomMemBreaks(w: World, k: Kind, r: Read, ready: bool)
    requires Inv(Shield, w) && PhantomMem(w, k, r, ready)
    ensures !Inv(Shield, ReadMemcached(w, k, r, ready))
  {
    var v := ReadMemcached(w, k, r, ready);
    AtWork(Shield, w, k, MemRead);
    assert Is(v.pass[k].st.conds, MemcachedReady) && v.pass[k].pc == Working(Configure);
    assert Held(v, k) == Held(w, k);
    if Inv(Shield, v) {
      AtWork(Shield, v, k, Configure);
    }
  }

  lemma PhantomPromBreaks(w: World, main: SecretRead, url: SecretRead, prom: SecretRead, copy: Obj)
    requires Inv(Shield, w) && PhantomProm(w, main, url, prom, copy)
    ensures !Inv(Shield, TopInputsPass(w, main, url, prom, copy))
  {
    var v := TopInputsPass(w, main, url, prom, copy);
    assert v.pass[Watcher].pc == Working(SubSecret);
    assert Held(v, Watcher) == Held(w, Watcher);
    if Inv(Shield, v) {
      AtWork(Shield, v, Watcher, SubSecret);
    }
  }

  // The handshake

  /** Whenever the Watcher reports Ready, every child's readiness it copied was earned for the spec
      the Watcher derived from the spec it read. If that is its latest generation, that spec is the
      current one. */
  lemma ReadyMeansDeployed(ls: seq<Label>)
    ensures var w := After(ls);
      Watcher in w.cr && Is(w.cr[Watcher].status.conds, Ready) ==>
        var c := w.cr[Watcher];
        && c.trace.TopTrace? && c.trace.gen == c.status.observed
        && (forall child :: child != Watcher ==> Saw1(child, c.trace))
        && (c.status.observed == c.gen ==> c.spec == Parent(c.trace.spec))
  {
    RunKeeps(Core, ls);
    var w := After(ls);
    Mine(Core, w, Watcher);
    if Watcher in w.cr && Is(w.cr[Watcher].status.conds, Ready) {
      var c := w.cr[Watcher];
      assert Honest(Watcher, c.status.conds);
      assert Is(c.status.conds, APIReady) && Is(c.status.conds, EngineReady) && Is(c.status.conds, ApplierReady);
      forall child | child != Watcher ensures Saw1(child, c.trace) {
        match child { case Api => case Engine => case Applier => }
      }
    }
  }

  /** A child that reports Ready for its current generation had its StatefulSet patched with its
      current spec, observed, and fully ready. */
  lemma ChildReadyMeansDeployed(ls: seq<Label>, k: Kind)
    requires k != Watcher
    ensures var w := After(ls);
      k in w.cr && Is(w.cr[k].status.conds, Ready) && w.cr[k].status.observed == w.cr[k].gen ==>
        var c := w.cr[k];
        c.trace.SubTrace? && Sound(c.trace.e) && c.spec == Child(c.trace.e.read)
        && var o, s := c.trace.e.sts, c.spec.s;
          && o.work.image == s.image && o.work.resources == s.resources && o.work.serviceAccount == s.serviceAccount
          && o.work.nodeSelector == s.nodeSelector && o.work.tls == s.tls
          && o.observed == o.gen && o.ready == o.work.replicas == s.replicas
  {
    RunKeeps(Core, ls);
    var w := After(ls);
    Mine(Core, w, k);
    if k in w.cr && Is(w.cr[k].status.conds, Ready) {
      assert Honest(k, w.cr[k].status.conds);
    }
  }

  // Conditions

  /** Persisted conditions are True along a prefix of the pipeline, and Ready is True only over an
      all-True table. */
  lemma ConditionsArePrefixes(ls: seq<Label>, k: Kind)
    ensures var w := After(ls);
      k in w.cr ==>
        var c := w.cr[k].status.conds;
        PrefixTrue(k, c) && (Is(c, Ready) ==> AllSubTrue(c))
  {
    RunKeeps(Core, ls);
    var w := After(ls);
    Mine(Core, w, k);
    if k in w.cr {
      ChainIsPrefix(k, w.cr[k].status.conds);
    }
  }
}
