/** Deletion: an undisturbed delete pass of the interleaved model does what the sequential one does,
    object by object, and gives up its CR's own finalizer on a clear table only. */
module Deletion {
  import opened Base
  import opened Conditions
  import opened Resources
  import opened Stages
  import opened World
  import opened Invariants
  import opened SafetyRuns
  import S = SubPass
  import T = TopPass
  import Th = Theorems

  /** What became of one shared object: rd is what was read, wr what became of the update that followed,
      if one did, in the cluster w. */
  function Outcome(w: World, k: Kind, s: Shared, rd: Read, wr: Write): S.ReleaseReply {
    match rd
    case Absent => S.NotThere
    case ReadFailed => S.NotReadable
    case Found(copy) =>
      if Own(k) !in copy.fins then S.NotOurs
      else if wr.applied && Accepts(w, s, copy, copy.fins - {Own(k)}) then if wr.ok then S.Updated else S.UpdateFailed
      else if wr.applied && s !in w.obj then S.UpdateMissing
      else S.UpdateFailed
  }

  /** Reading the object, and updating it if need be. */
  function Releasing(w: World, k: Kind, s: Shared, rd: Read, wr: Write): World {
    Apply(Apply(w, ReleaseReads(k, s, rd)), ReleaseWrites(k, s, wr))
  }

  const GIVE_UP := Closing(DropOwn, FromDelete, false)
  const STOP := Closing(Keep, FromDelete, false)

  /** k's delete pass stands at pc with this status. */
  predicate Deleting(w: World, k: Kind, pc: Pc, st: Status) {
    k in w.pass && w.pass[k].pc == pc && w.pass[k].st == st
  }

  /** One object, for every reading of it and every fate of the update. */
  lemma ReleasingLands(w: World, k: Kind, s: Shared, st: Status, rd: Read, wr: Write)
    requires Deleting(w, k, Release(s), st) && Readable(w, s, rd)
    ensures Deleting(Releasing(w, k, s, rd, wr), k,
      match Outcome(w, k, s, rd, wr)
      case NotThere => AfterRelease(k, s)
      case NotOurs => AfterRelease(k, s)
      case Updated => AfterRelease(k, s)
      case NotReadable => if s == Prometheus then AfterRelease(k, s) else STOP
      case UpdateMissing => if s == Memcached then STOP else AfterRelease(k, s)
      case UpdateFailed => STOP, st)
  {
    match rd {
      case Found(copy) => FoundLands(w, k, s, st, copy, wr);
      case Absent => SkipsUpdate(w, k, s, st, rd, wr, AfterRelease(k, s));
      case ReadFailed => SkipsUpdate(w, k, s, st, rd, wr, if s == Prometheus then AfterRelease(k, s) else STOP);
    }
  }

  lemma FoundLands(w: World, k: Kind, s: Shared, st: Status, copy: Obj, wr: Write)
    requires Deleting(w, k, Release(s), st) && Readable(w, s, Found(copy))
    ensures Deleting(Releasing(w, k, s, Found(copy), wr), k,
      match Outcome(w, k, s, Found(copy), wr)
      case UpdateMissing => if s == Memcached then STOP else AfterRelease(k, s)
      case UpdateFailed => STOP
      case _ => AfterRelease(k, s), st)
  {
    if Own(k) in copy.fins {
      var v := ReleaseReadPass(w, k, s, Found(copy));
      assert v == SetPass(w, k, w.pass[k].(copy := Some(copy), pc := ReleaseUpdate(s)));
      UpdateLands(v, k, s, st, copy, wr);
    } else {
      SkipsUpdate(w, k, s, st, Found(copy), wr, AfterRelease(k, s));
    }
  }

  lemma SkipsUpdate(w: World, k: Kind, s: Shared, st: Status, rd: Read, wr: Write, pc: Pc)
    requires Deleting(w, k, Release(s), st) && Readable(w, s, rd)
    requires AfterReleaseRead(k, w.pass[k], s, rd) == Stopped(w.pass[k], pc) && pc != ReleaseUpdate(s)
    ensures Deleting(Releasing(w, k, s, rd, wr), k, pc, st)
  {}

  lemma UpdateLands(w: World, k: Kind, s: Shared, st: Status, copy: Obj, wr: Write)
    requires Deleting(w, k, ReleaseUpdate(s), st) && w.pass[k].copy == Some(copy)
    ensures var fins := copy.fins - {Own(k)};
      Deleting(ReleaseUpdatePass(w, k, s, wr), k,
        if wr.applied && Accepts(w, s, copy, fins) then if wr.ok then AfterRelease(k, s) else STOP
        else if wr.applied && s !in w.obj && s != Memcached then AfterRelease(k, s) else STOP, st)
  {}

  lemma PassedBy(w: World, k: Kind, s: Shared, rd: Read, wr: Write)
    requires k in w.pass && w.pass[k].pc != Release(s) && w.pass[k].pc != ReleaseUpdate(s)
    ensures Releasing(w, k, s, rd, wr) == w
  {}

  // Children

  /** The stored CR is what the pass reads. */
  predicate IsRead(w: World, c: S.Sub) {
    && c.kind in w.cr && c.kind !in w.pass
    && var d := w.cr[c.kind]; d.gen == c.gen && d.deleting == c.deleting && d.own == c.own && d.status == c.st
  }

  /** The first steps of a child's delete pass: what only the API has to deal with. */
  function Opening(w: World, k: Kind, rd: Read, wr: Write): World {
    var v := Apply(w, Start(k, Rbac(Unknown, Unknown, Unknown), true));
    if k == Api then Releasing(v, k, KeystoneEndpoint, rd, wr) else v
  }

  lemma OpeningLands(w: World, c: S.Sub, r: S.Replies, rd: Read, wr: Write)
    requires c.kind != Watcher && IsRead(w, c) && c.deleting && c.st.conds != map[]
    requires c.kind == Api ==> Readable(w, KeystoneEndpoint, rd) && r.releaseEndpoint == Outcome(w, Api, KeystoneEndpoint, rd, wr)
    ensures Deleting(Opening(w, c.kind, rd, wr), c.kind,
              if EndpointStops(c, r) then STOP else Release(Memcached), Begin(c.kind, c.gen, c.st))
  {
    var k := c.kind;
    var v := Apply(w, Start(k, Rbac(Unknown, Unknown, Unknown), true));
    assert v == SetPass(w, k, Opened(k, w.cr[k], Rbac(Unknown, Unknown, Unknown), true));
    if k == Api {
      assert Deleting(v, k, Release(KeystoneEndpoint), Begin(k, c.gen, c.st));
      assert Outcome(v, k, KeystoneEndpoint, rd, wr) == Outcome(w, k, KeystoneEndpoint, rd, wr);
      ReleasingLands(v, k, KeystoneEndpoint, Begin(k, c.gen, c.st), rd, wr);
    }
  }

  /** How a delete pass has ended. */
  predicate Ended(v: World, k: Kind, st: Status, gaveUp: bool) {
    Deleting(v, k, if gaveUp then GIVE_UP else STOP, st)
  }

  /** An undisturbed delete pass of a child, whatever it reads, old copies included, and whatever becomes
      of its updates: with replies that say what became of each object, the sequential pass has the same
      status, keeps the own finalizer exactly when the steps stop short of giving it up, and fails
      exactly then, unless what stopped them is an unreadable Memcached. */
  lemma DeleteRefines(w: World, c: S.Sub, r: S.Replies, rd1: Read, wr1: Write, rd2: Read, wr2: Write,
                      timeout: Delay, skipReady: bool)
    requires S.Fits(c, r) && IsRead(w, c) && c.deleting && c.st.conds != map[]
    requires c.kind == Api ==>
      Readable(w, KeystoneEndpoint, rd1) && r.releaseEndpoint == Outcome(w, Api, KeystoneEndpoint, rd1, wr1)
    requires var u := Opening(w, c.kind, rd1, wr1);
      Readable(u, Memcached, rd2) && r.releaseMem == Outcome(u, c.kind, Memcached, rd2, wr2)
    ensures var u := Opening(w, c.kind, rd1, wr1);
      var v, o := Releasing(u, c.kind, Memcached, rd2, wr2), S.Pass(c, r, timeout, skipReady);
      var gaveUp := Deleting(v, c.kind, GIVE_UP, Begin(c.kind, c.gen, c.st));
      && Ended(v, c.kind, Begin(c.kind, c.gen, c.st), gaveUp)
      && (o.own <==> c.own && !gaveUp)
      && o.exit == Exit(0, !gaveUp && !(u.pass[c.kind].pc == Release(Memcached) && rd2.ReadFailed?))
      && o.st == Deferred(v.pass[c.kind].st, skipReady) && o.sent == S.NOTHING
  {
    OpeningLands(w, c, r, rd1, wr1);
    MemcachedLands(Opening(w, c.kind, rd1, wr1), c, r, rd2, wr2);
    SequentialDelete(c, r, timeout, skipReady);
  }

  predicate EndpointStops(c: S.Sub, r: S.Replies) {
    c.kind == Api && (r.releaseEndpoint == S.NotReadable || r.releaseEndpoint == S.UpdateFailed)
  }

  predicate MemcachedStops(r: S.Replies) {
    r.releaseMem == S.NotReadable || r.releaseMem == S.UpdateMissing || r.releaseMem == S.UpdateFailed
  }

  lemma MemcachedLands(u: World, c: S.Sub, r: S.Replies, rd: Read, wr: Write)
    requires c.kind != Watcher
    requires Deleting(u, c.kind, if EndpointStops(c, r) then STOP else Release(Memcached), Begin(c.kind, c.gen, c.st))
    requires Readable(u, Memcached, rd) && r.releaseMem == Outcome(u, c.kind, Memcached, rd, wr)
    ensures Deleting(Releasing(u, c.kind, Memcached, rd, wr), c.kind,
                     if EndpointStops(c, r) || MemcachedStops(r) then STOP else GIVE_UP, Begin(c.kind, c.gen, c.st))
  {
    if EndpointStops(c, r) {
      PassedBy(u, c.kind, Memcached, rd, wr);
    } else {
      ReleasingLands(u, c.kind, Memcached, Begin(c.kind, c.gen, c.st), rd, wr);
    }
  }

  lemma SequentialDelete(c: S.Sub, r: S.Replies, timeout: Delay, skipReady: bool)
    requires c.kind != Watcher && c.deleting && c.st.conds != map[]
    ensures S.Pass(c, r, timeout, skipReady) ==
      S.Outcome(Deferred(Begin(c.kind, c.gen, c.st), skipReady),
                Exit(0, EndpointStops(c, r) || (MemcachedStops(r) && r.releaseMem != S.NotReadable)),
                c.own && (EndpointStops(c, r) || MemcachedStops(r)), S.NOTHING)
  {}

  // The Watcher

  predicate IsTop(w: World, c: T.Top) {
    && Watcher in w.cr && Watcher !in w.pass
    && var d := w.cr[Watcher]; d.gen == c.gen && d.deleting == c.deleting && d.own == c.own && d.status == c.st
  }

  /** Up to the KeystoneService. */
  function TopOpening(w: World, rbac: Rbac, dropDbOk: bool): World {
    Apply(Apply(w, Start(Watcher, rbac, true)), WatcherDoes(DoDropDb(dropDbOk)))
  }

  lemma TopOpeningLands(w: World, c: T.Top, rbac: Rbac, ok: bool)
    requires IsTop(w, c) && c.deleting && c.st.conds != map[]
    ensures Deleting(TopOpening(w, rbac, ok), Watcher, if ok then Release(KeystoneService) else STOP,
                     RbacStage(Begin(Watcher, c.gen, c.st), rbac))
  {
    assert Apply(w, Start(Watcher, rbac, true)) == SetPass(w, Watcher, Opened(Watcher, w.cr[Watcher], rbac, true));
  }

  /** The same for the Watcher: database, KeystoneService, Prometheus secret. It fails exactly when it
      does not give up its finalizer. */
  lemma TopDeleteRefines(w: World, c: T.Top, r: T.TopReplies, rd1: Read, wr1: Write, rd2: Read, wr2: Write, skipReady: bool)
    requires IsTop(w, c) && c.deleting && c.st.conds != map[] && r.rbacOk
    requires var u := TopOpening(w, r.rbac, r.dropDbOk);
      Readable(u, KeystoneService, rd1) && r.releaseService == Outcome(u, Watcher, KeystoneService, rd1, wr1)
    requires var u := Releasing(TopOpening(w, r.rbac, r.dropDbOk), Watcher, KeystoneService, rd1, wr1);
      Readable(u, Prometheus, rd2) && r.releaseSecret == Outcome(u, Watcher, Prometheus, rd2, wr2)
    ensures var u := Releasing(TopOpening(w, r.rbac, r.dropDbOk), Watcher, KeystoneService, rd1, wr1);
      var v, o := Releasing(u, Watcher, Prometheus, rd2, wr2), T.Pass(c, r, skipReady);
      var st := RbacStage(Begin(Watcher, c.gen, c.st), r.rbac);
      var gaveUp := Deleting(v, Watcher, GIVE_UP, st);
      && Ended(v, Watcher, st, gaveUp)
      && (o.own <==> c.own && !gaveUp) && o.exit == Exit(0, !gaveUp)
      && o.st == Deferred(v.pass[Watcher].st, skipReady) && o.sent == T.QUIET
  {
    TopSteps(w, c, r, rd1, wr1, rd2, wr2);
    SequentialTopDelete(c, r, skipReady);
  }

  predicate Cleared(r: T.TopReplies) {
    r.dropDbOk && r.releaseService != S.NotReadable && r.releaseService != S.UpdateFailed && r.releaseSecret != S.UpdateFailed
  }

  lemma TopSteps(w: World, c: T.Top, r: T.TopReplies, rd1: Read, wr1: Write, rd2: Read, wr2: Write)
    requires IsTop(w, c) && c.deleting && c.st.conds != map[]
    requires var u := TopOpening(w, r.rbac, r.dropDbOk);
      Readable(u, KeystoneService, rd1) && r.releaseService == Outcome(u, Watcher, KeystoneService, rd1, wr1)
    requires var u := Releasing(TopOpening(w, r.rbac, r.dropDbOk), Watcher, KeystoneService, rd1, wr1);
      Readable(u, Prometheus, rd2) && r.releaseSecret == Outcome(u, Watcher, Prometheus, rd2, wr2)
    ensures var u := Releasing(TopOpening(w, r.rbac, r.dropDbOk), Watcher, KeystoneService, rd1, wr1);
      Deleting(Releasing(u, Watcher, Prometheus, rd2, wr2), Watcher, if Cleared(r) then GIVE_UP else STOP,
               RbacStage(Begin(Watcher, c.gen, c.st), r.rbac))
  {
    var st, t := RbacStage(Begin(Watcher, c.gen, c.st), r.rbac), TopOpening(w, r.rbac, r.dropDbOk);
    TopOpeningLands(w, c, r.rbac, r.dropDbOk);
    var u := Releasing(t, Watcher, KeystoneService, rd1, wr1);
    if r.dropDbOk {
      ReleasingLands(t, Watcher, KeystoneService, st, rd1, wr1);
    } else {
      PassedBy(t, Watcher, KeystoneService, rd1, wr1);
    }
    if u.pass[Watcher].pc == Release(Prometheus) {
      ReleasingLands(u, Watcher, Prometheus, st, rd2, wr2);
    } else {
      PassedBy(u, Watcher, Prometheus, rd2, wr2);
    }
  }

  lemma SequentialTopDelete(c: T.Top, r: T.TopReplies, skipReady: bool)
    requires c.deleting && c.st.conds != map[] && r.rbacOk
    ensures T.Pass(c, r, skipReady) ==
      T.TopOutcome(Deferred(RbacStage(Begin(Watcher, c.gen, c.st), r.rbac), skipReady), Exit(0, !Cleared(r)),
                   c.own && !Cleared(r), T.QUIET)
  {}

  // What is held then

  /** From a cluster in order, with reads that do not miss the own finalizer, the sequential pass gives
      its own finalizer up only when no shared object carries one of the kind any more. */
  lemma GivesUpClear(w: World, c: S.Sub, r: S.Replies, rd1: Read, wr1: Write, rd2: Read, wr2: Write,
                     timeout: Delay, skipReady: bool)
    requires S.Fits(c, r) && IsRead(w, c) && c.deleting && c.st.conds != map[] && Inv(Fins, w)
    requires c.kind == Api ==>
      Readable(w, KeystoneEndpoint, rd1) && r.releaseEndpoint == Outcome(w, Api, KeystoneEndpoint, rd1, wr1)
    requires var u := Opening(w, c.kind, rd1, wr1);
      Readable(u, Memcached, rd2) && r.releaseMem == Outcome(u, c.kind, Memcached, rd2, wr2)
    requires Misses(c.kind, KeystoneEndpoint, rd1) ==> KeystoneEndpoint !in Held(w, c.kind)
    requires Misses(c.kind, Memcached, rd2) ==> Memcached !in Held(Opening(w, c.kind, rd1, wr1), c.kind)
    ensures var v := Releasing(Opening(w, c.kind, rd1, wr1), c.kind, Memcached, rd2, wr2);
      c.own && !S.Pass(c, r, timeout, skipReady).own ==> Held(v, c.kind) == {}
  {
    var k, u := c.kind, Opening(w, c.kind, rd1, wr1);
    var v := Releasing(u, k, Memcached, rd2, wr2);
    DeleteRefines(w, c, r, rd1, wr1, rd2, wr2, timeout, skipReady);
    var t := Apply(w, Start(k, Rbac(Unknown, Unknown, Unknown), true));
    StepKeeps(Fins, w, Start(k, Rbac(Unknown, Unknown, Unknown), true));
    if k == Api {
      InOrder(t, k, KeystoneEndpoint, rd1, wr1);
    }
    InOrder(u, k, Memcached, rd2, wr2);
    Th.OrderlyPass(v, k);
  }

  lemma InOrder(w: World, k: Kind, s: Shared, rd: Read, wr: Write)
    requires Inv(Fins, w) && (Misses(k, s, rd) ==> s !in Held(w, k))
    ensures Inv(Fins, Releasing(w, k, s, rd, wr))
  {
    StepKeeps(Fins, w, ReleaseReads(k, s, rd));
    StepKeeps(Fins, Apply(w, ReleaseReads(k, s, rd)), ReleaseWrites(k, s, wr));
  }

  lemma TopGivesUpClear(w: World, c: T.Top, r: T.TopReplies, rd1: Read, wr1: Write, rd2: Read, wr2: Write, skipReady: bool)
    requires IsTop(w, c) && c.deleting && c.st.conds != map[] && r.rbacOk && Inv(Fins, w)
    requires var u := TopOpening(w, r.rbac, r.dropDbOk);
      Readable(u, KeystoneService, rd1) && r.releaseService == Outcome(u, Watcher, KeystoneService, rd1, wr1)
      && (Misses(Watcher, KeystoneService, rd1) ==> KeystoneService !in Held(u, Watcher))
    requires var u := Releasing(TopOpening(w, r.rbac, r.dropDbOk), Watcher, KeystoneService, rd1, wr1);
      Readable(u, Prometheus, rd2) && r.releaseSecret == Outcome(u, Watcher, Prometheus, rd2, wr2)
      && (Misses(Watcher, Prometheus, rd2) ==> Prometheus !in Held(u, Watcher))
    ensures var u := Releasing(TopOpening(w, r.rbac, r.dropDbOk), Watcher, KeystoneService, rd1, wr1);
      var v := Releasing(u, Watcher, Prometheus, rd2, wr2);
      c.own && !T.Pass(c, r, skipReady).own ==> Held(v, Watcher) == {}
  {
    var t := TopOpening(w, r.rbac, r.dropDbOk);
    var u := Releasing(t, Watcher, KeystoneService, rd1, wr1);
    TopDeleteRefines(w, c, r, rd1, wr1, rd2, wr2, skipReady);
    StepKeeps(Fins, w, Start(Watcher, r.rbac, true));
    StepKeeps(Fins, Apply(w, Start(Watcher, r.rbac, true)), WatcherDoes(DoDropDb(r.dropDbOk)));
    InOrder(t, Watcher, KeystoneService, rd1, wr1);
    InOrder(u, Watcher, Prometheus, rd2, wr2);
    Th.OrderlyPass(Releasing(u, Watcher, Prometheus, rd2, wr2), Watcher);
  }
}
