/** Schedules on which the Watcher leaves its finalizer behind: its delete pass overlooks a read of the
    Prometheus secret that fails, or reads an old copy that does not show the finalizer yet. */
module Leak {
  import opened Base
  import opened Conditions
  import opened Resources
  import opened Stages
  import opened World
  import opened Invariants
  import opened SafetyRuns
  import opened Theorems

  const FINE := Rbac(True, True, True)

  /** Create and register the Watcher. */
  function Registering(spec: WatcherSpec): seq<Label> {
    [EnvDoes(CreateCR(Watcher, Parent(spec))), EnvDoes(ObjCreate(Prometheus, {})),
     Start(Watcher, FINE, true), WriteMeta(Watcher, true), WriteStatus(Watcher, true, true), Crash(Watcher)]
  }

  /** Work until the secret carries the finalizer, then crash. */
  function Acquiring(h: Digest): seq<Label> {
    [Start(Watcher, FINE, true), WatcherDoes(DoDatabases(DbOk, MqOk)),
     WatcherDoes(DoTopInputs(Got(h), Got(h), Got(h), OLD)),
     WatcherDoes(DoPromUpdate(Write(true, true))), WatcherDoes(DoSubSecret(true)), Crash(Watcher)]
  }

  /** Delete, with the one read that tells nothing of the finalizer. */
  function Deleting(r: Read): seq<Label> {
    [EnvDoes(RequestDelete(Watcher)), Start(Watcher, FINE, true), WatcherDoes(DoDropDb(true)),
     ReleaseReads(Watcher, KeystoneService, Absent), ReleaseReads(Watcher, Prometheus, r),
     WriteMeta(Watcher, true)]
  }

  /** The secret as it was before the finalizer. */
  const OLD := Obj(1, false, {})

  /** The read fails, or the cache still has the secret as it was. */
  predicate Misleading(r: Read) {
    r == ReadFailed || r == Found(OLD)
  }

  lemma {:induction false} RunAppend(w: World, ls: seq<Label>, ms: seq<Label>)
    ensures Run(w, ls + ms) == Run(Run(w, ls), ms)
    decreases |ms|
  {
    if ms == [] {
      assert ls + ms == ls;
    } else {
      var ns := ms[..|ms| - 1];
      RunAppend(w, ls, ns);
      assert (ls + ms)[..|ls + ms| - 1] == ls + ns;
    }
  }

  lemma RunFront(w: World, ls: seq<Label>)
    requires ls != []
    ensures Run(w, ls) == Run(Apply(w, ls[0]), ls[1..])
  {
    assert ls[..1] + ls[1..] == ls && ls[..1][..0] == [];
    RunAppend(w, ls[..1], ls[1..]);
  }

  /** The Watcher's CR is stored, the secret carries these finalizers, and there is no
      KeystoneService. */
  predicate Stands(w: World, own: bool, fins: set<Finalizer>) {
    && Watcher in w.cr && w.cr[Watcher].own == own && !w.cr[Watcher].deleting && !w.cr[Watcher].held
    && KeystoneService !in w.obj && Prometheus in w.obj && w.obj[Prometheus] == Obj(w.rev, false, fins)
  }

  predicate Idle(w: World) {
    Watcher !in w.pass
  }

  predicate IsAt(w: World, pc: Pc) {
    Watcher in w.pass && w.pass[Watcher].pc == pc
  }

  lemma Created(spec: WatcherSpec)
    ensures var ls := Registering(spec); var w := Apply(Apply(EMPTY, ls[0]), ls[1]);
      Stands(w, false, {}) && w.rev == 1 && Idle(w) && w.cr[Watcher].status.conds == map[]
  {
    assert Foreigners({}) == {};
  }

  lemma Opens(w: World, own: bool, fins: set<Finalizer>)
    requires Stands(w, own, fins) && Idle(w)
    requires own ==> w.cr[Watcher].status.conds != map[]
    ensures var v := Apply(w, Start(Watcher, FINE, true));
      && Stands(v, own, fins) && v.rev == w.rev && Ready in v.pass[Watcher].st.conds
      && IsAt(v, if own then Working(Databases) else Closing(AddOwn, FromGate, false))
  {}

  lemma Registers(w: World)
    requires Stands(w, false, {}) && IsAt(w, Closing(AddOwn, FromGate, false))
    requires Ready in w.pass[Watcher].st.conds
    ensures var v := Apply(Apply(Apply(w, WriteMeta(Watcher, true)), WriteStatus(Watcher, true, true)), Crash(Watcher));
      Stands(v, true, {}) && v.rev == w.rev && Idle(v) && Ready in v.cr[Watcher].status.conds
  {
    var w1 := Apply(w, WriteMeta(Watcher, true));
    assert Stands(w1, true, {}) && IsAt(w1, Closing(Keep, FromGate, false));
    assert w1.pass[Watcher].st == w.pass[Watcher].st;
    var w2 := Apply(w1, WriteStatus(Watcher, true, true));
    assert Stands(w2, true, {}) && Ready in w2.cr[Watcher].status.conds;
  }

  lemma Registered(spec: WatcherSpec)
    ensures var w := Run(EMPTY, Registering(spec));
      Stands(w, true, {}) && w.rev == 1 && Idle(w) && Ready in w.cr[Watcher].status.conds
  {
    var ls := Registering(spec);
    Created(spec);
    var w2 := Apply(Apply(EMPTY, ls[0]), ls[1]);
    Opens(w2, false, {});
    Registers(Apply(w2, ls[2]));
    Run6(EMPTY, ls);
  }

  lemma Run6(w: World, ls: seq<Label>)
    requires |ls| == 6
    ensures Run(w, ls) ==
      Apply(Apply(Apply(Apply(Apply(Apply(w, ls[0]), ls[1]), ls[2]), ls[3]), ls[4]), ls[5])
  {
    RunFront(w, ls);
    var w1 := Apply(w, ls[0]);
    RunFront(w1, ls[1..]);
    var w2 := Apply(w1, ls[1]);
    RunFront(w2, ls[2..]);
    var w3 := Apply(w2, ls[2]);
    RunFront(w3, ls[3..]);
    var w4 := Apply(w3, ls[3]);
    RunFront(w4, ls[4..]);
    var w5 := Apply(w4, ls[4]);
    RunFront(w5, ls[5..]);
    assert ls[1..][1..] == ls[2..] && ls[2..][1..] == ls[3..] && ls[3..][1..] == ls[4..];
    assert ls[4..][1..] == ls[5..] && ls[5..][1..] == [];
  }

  lemma ReadsInputs(w: World, h: Digest)
    requires Stands(w, true, {}) && w.rev == 1 && IsAt(w, Working(Databases))
    ensures var ls := Acquiring(h); var v := Apply(Apply(w, ls[1]), ls[2]);
      && Stands(v, true, {}) && v.rev == 1 && IsAt(v, Working(PromUpdate))
      && v.pass[Watcher].copy == Some(OLD)
      && v.cr == w.cr
  {
    var w2 := Apply(w, Acquiring(h)[1]);
    assert w2.pass[Watcher].pc == Working(TopInputs);
  }

  lemma SendsFinalizer(w: World)
    requires Stands(w, true, {}) && w.rev == 1 && IsAt(w, Working(PromUpdate))
    requires w.pass[Watcher].copy == Some(OLD)
    ensures var v := Apply(w, WatcherDoes(DoPromUpdate(Write(true, true))));
      Stands(v, true, {Own(Watcher)}) && v.cr == w.cr && v.rev == 2
  {}

  lemma Ends(w: World)
    requires Stands(w, true, {Own(Watcher)})
    ensures var v := Apply(Apply(w, WatcherDoes(DoSubSecret(true))), Crash(Watcher));
      Stands(v, true, {Own(Watcher)}) && Idle(v) && v.cr == w.cr && v.rev == w.rev
  {}

  lemma Acquired(w: World, h: Digest)
    requires Stands(w, true, {}) && w.rev == 1 && Idle(w) && Ready in w.cr[Watcher].status.conds
    ensures var v := Run(w, Acquiring(h));
      Stands(v, true, {Own(Watcher)}) && Idle(v) && Ready in v.cr[Watcher].status.conds && v.rev == 2
  {
    var ls := Acquiring(h);
    Opens(w, true, {});
    var w1 := Apply(w, ls[0]);
    assert w1.cr == w.cr;
    ReadsInputs(w1, h);
    var w3 := Apply(Apply(w1, ls[1]), ls[2]);
    SendsFinalizer(w3);
    Ends(Apply(w3, ls[3]));
    Run6(w, ls);
  }

  lemma StartsDelete(w: World)
    requires Stands(w, true, {Own(Watcher)}) && Idle(w) && Ready in w.cr[Watcher].status.conds
    ensures var v := Apply(Apply(w, EnvDoes(RequestDelete(Watcher))), Start(Watcher, FINE, true));
      && IsAt(v, DropDb) && v.obj == w.obj && v.rev == w.rev
      && Watcher in v.cr && v.cr[Watcher].deleting && !v.cr[Watcher].held
  {
    var w1 := Apply(w, EnvDoes(RequestDelete(Watcher)));
    assert w1.cr[Watcher].deleting && w1.cr[Watcher].own && w1.cr[Watcher].status.conds != map[];
  }

  lemma ReachesSecret(w: World)
    requires IsAt(w, DropDb) && KeystoneService !in w.obj
    ensures var v := Apply(Apply(w, WatcherDoes(DoDropDb(true))), ReleaseReads(Watcher, KeystoneService, Absent));
      IsAt(v, Release(Prometheus)) && v.cr == w.cr && v.obj == w.obj && v.rev == w.rev
  {
    var v := Apply(w, WatcherDoes(DoDropDb(true)));
    assert IsAt(v, Release(KeystoneService)) && v.cr == w.cr;
  }

  lemma GoesAway(w: World, r: Read)
    requires IsAt(w, Release(Prometheus)) && Prometheus in w.obj && w.obj[Prometheus].rv == w.rev == 2
    requires Watcher in w.cr && w.cr[Watcher].deleting && !w.cr[Watcher].held && Misleading(r)
    ensures var v := Apply(Apply(w, ReleaseReads(Watcher, Prometheus, r)), WriteMeta(Watcher, true));
      v.obj == w.obj && Watcher !in v.cr
  {
    var v := Apply(w, ReleaseReads(Watcher, Prometheus, r));
    assert IsAt(v, Closing(DropOwn, FromDelete, false)) && v.cr == w.cr;
  }

  lemma Leaked(w: World, r: Read)
    requires Stands(w, true, {Own(Watcher)}) && Idle(w) && Ready in w.cr[Watcher].status.conds
    requires w.rev == 2 && Misleading(r)
    ensures var v := Run(w, Deleting(r));
      Watcher !in v.cr && Own(Watcher) in FinsOn(v, Prometheus)
  {
    var ls := Deleting(r);
    StartsDelete(w);
    var w2 := Apply(Apply(w, ls[0]), ls[1]);
    ReachesSecret(w2);
    GoesAway(Apply(Apply(w2, ls[2]), ls[3]), r);
    Run6(w, ls);
  }

  function Leaking(spec: WatcherSpec, h: Digest, r: Read): seq<Label> {
    Registering(spec) + Acquiring(h) + Deleting(r)
  }

  lemma LeaksBy(spec: WatcherSpec, h: Digest, r: Read)
    requires Misleading(r)
    ensures var v := After(Leaking(spec, h, r));
      Watcher !in v.cr && Own(Watcher) in FinsOn(v, Prometheus)
  {
    var a, b := Registering(spec), Acquiring(h);
    Registered(spec);
    Acquired(Run(EMPTY, a), h);
    RunAppend(EMPTY, a, b);
    Leaked(Run(EMPTY, a + b), r);
    RunAppend(EMPTY, a + b, Deleting(r));
  }

  /** The Watcher leaves the store while its finalizer stays on the Prometheus secret: its delete pass
      overlooks a read of the secret that fails otherwise than with NotFound. */
  lemma FinalizerCanLeak(spec: WatcherSpec, h: Digest)
    ensures var v := After(Leaking(spec, h, ReadFailed));
      Watcher !in v.cr && Own(Watcher) in FinsOn(v, Prometheus)
  {
    LeaksBy(spec, h, ReadFailed);
  }

  /** The same without any failure: the delete pass reads the secret as it was before the finalizer. */
  lemma OldCopyCanLeak(spec: WatcherSpec, h: Digest)
    ensures var v := After(Leaking(spec, h, Found(OLD)));
      Watcher !in v.cr && Own(Watcher) in FinsOn(v, Prometheus)
  {
    LeaksBy(spec, h, Found(OLD));
  }
}
