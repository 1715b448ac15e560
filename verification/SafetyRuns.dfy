/** Deletion and the environment keep the invariant; hence every schedule does. */
module SafetyRuns {
  import opened Base
  import opened Conditions
  import opened Resources
  import opened Stages
  import opened World
  import opened Invariants
  import opened Frames
  import opened Safety
  import opened SafetyChild
  import opened SafetyTop

  // Deletion

  /** A delete pass moves on once its object no longer carries the kind's finalizer. */
  lemma AfterReleaseOk(care: Care, k: Kind, p: Pass, c: Option<CR>, s: Shared, held: set<Shared>)
    requires s in Uses(k) && DeleteOk(k, p, c) && (care != Core ==> held <= Left(s) - {s})
    ensures PassOk(care, k, Stopped(p, AfterRelease(k, s)), c, held)
  {}

  lemma StoppedOk(care: Care, k: Kind, p: Pass, c: Option<CR>, held: set<Shared>)
    requires DeleteOk(k, p, c)
    ensures PassOk(care, k, Stopped(p, Closing(Keep, FromDelete, false)), c, held)
  {}

  lemma AtRelease(care: Care, w: World, k: Kind, s: Shared)
    requires Inv(care, w) && k in w.pass && (w.pass[k].pc == Release(s) || w.pass[k].pc == ReleaseUpdate(s))
    ensures s in Uses(k) && DeleteOk(k, w.pass[k], Look(w.cr, k)) && (care != Core ==> Held(w, k) <= Left(s))
    ensures StoredOk(care, k, Look(w.cr, k), Held(w, k))
  {
    Mine(care, w, k);
  }

  lemma ReleaseReadOk(care: Care, k: Kind, p: Pass, c: Option<CR>, s: Shared, held: set<Shared>, r: Read)
    requires s in Uses(k) && DeleteOk(k, p, c) && p.pc == Release(s)
    requires care != Core ==> held <= Left(s) && (Misses(k, s, r) ==> s !in held)
    ensures PassOk(care, k, AfterReleaseRead(k, p, s, r), c, held)
  {
    StoppedOk(care, k, p, c, held);
    if Misses(k, s, r) {
      AfterReleaseOk(care, k, p, c, s, held);
    }
  }

  lemma ReleaseReadPassOk(care: Care, k: Kind, c: Option<CR>, p: Pass, s: Shared, held: set<Shared>, r: Read)
    requires KindInv(care, k, c, Some(p), held) && p.pc == Release(s)
    requires care != Core && Misses(k, s, r) ==> s !in held
    ensures KindInv(care, k, c, Some(AfterReleaseRead(k, p, s, r)), held)
  {
    ReleaseReadOk(care, k, p, c, s, held, r);
  }

  lemma ReleaseReadJudged(care: Care, w: World, k: Kind, s: Shared, r: Read)
    requires Inv(care, w) && (care != Core ==> !Leaks(w, ReleaseReads(k, s, r)))
    requires k in w.pass && w.pass[k].pc == Release(s) && Readable(w, s, r)
    ensures Judge(care)(k, Look(w.cr, k), Some(AfterReleaseRead(k, w.pass[k], s, r)), Held(w, k))
  {
    Mine(care, w, k);
    ReleaseReadPassOk(care, k, Look(w.cr, k), w.pass[k], s, Held(w, k), r);
  }

  lemma ReleaseReadCopies(w: World, k: Kind, s: Shared, r: Read)
    requires k in w.pass && w.pass[k].pc == Release(s) && Readable(w, s, r)
    ensures CopiesOk(w, AfterReleaseRead(k, w.pass[k], s, r))
  {}

  lemma ReleaseReadKeeps(care: Care, w: World, k: Kind, s: Shared, r: Read)
    requires Inv(care, w) && (care != Core ==> !Leaks(w, ReleaseReads(k, s, r)))
    ensures Inv(care, ReleaseReadPass(w, k, s, r))
  {
    if k in w.pass && w.pass[k].pc == Release(s) && Readable(w, s, r) {
      ReleaseReadJudged(care, w, k, s, r);
      ReleaseReadCopies(w, k, s, r);
      PassStep(w, k, AfterReleaseRead(k, w.pass[k], s, r), Judge(care));
    }
  }

  /** Releasing keeps the CR in order: it is under deletion, so it promises no protection. */
  lemma ReleasedOk(care: Care, k: Kind, c: Option<CR>, held: set<Shared>, s: Shared)
    requires StoredOk(care, k, c, held) && s in held && (c.Some? && c.value.own ==> c.value.deleting)
    ensures StoredOk(care, k, c, held - {s})
  {}

  /** The store took the object without the finalizer; the caller may not have learned of it. */
  lemma ReleasedAway(care: Care, k: Kind, c: Option<CR>, p: Pass, held: set<Shared>, s: Shared, ok: bool)
    requires KindInv(care, k, c, Some(p), held) && p.pc == ReleaseUpdate(s)
    ensures KindInv(care, k, c, Some(Stopped(p, if ok then AfterRelease(k, s) else Closing(Keep, FromDelete, false))), held - {s})
  {
    if s in held {
      ReleasedOk(care, k, c, held, s);
    } else {
      assert held - {s} == held;
    }
    if ok {
      AfterReleaseOk(care, k, p, c, s, held - {s});
    } else {
      StoppedOk(care, k, p, c, held - {s});
    }
  }

  lemma ReleaseAccepted(care: Care, w: World, k: Kind, s: Shared, ok: bool)
    requires Inv(care, w) && k in w.pass && w.pass[k].pc == ReleaseUpdate(s) && s in w.obj
    ensures var p := w.pass[k];
      var u := SetFins(w, s, w.obj[s].deleting, w.obj[s].fins - {Own(k)});
      Inv(care, SetPass(u, k, Stopped(p, if ok then AfterRelease(k, s) else Closing(Keep, FromDelete, false))))
  {
    Mine(care, w, k);
    var fins := w.obj[s].fins - {Own(k)};
    assert Owners(fins) - {Own(k)} == Owners(w.obj[s].fins) - {Own(k)};
    FinsStep(w, k, s, w.obj[s].deleting, fins);
    ReleasedAway(care, k, Look(w.cr, k), w.pass[k], Held(w, k), s, ok);
    var q := Stopped(w.pass[k], if ok then AfterRelease(k, s) else Closing(Keep, FromDelete, false));
    ObjectStep(w, SetFins(w, s, w.obj[s].deleting, fins), k, q, Judge(care));
  }

  lemma ReleaseRefused(care: Care, w: World, k: Kind, s: Shared, pc: Pc)
    requires Inv(care, w) && k in w.pass && w.pass[k].pc == ReleaseUpdate(s)
    requires pc == Closing(Keep, FromDelete, false) || (pc == AfterRelease(k, s) && s !in w.obj)
    ensures Inv(care, SetPass(w, k, Stopped(w.pass[k], pc)))
  {
    AtRelease(care, w, k, s);
    var p, c := w.pass[k], Look(w.cr, k);
    StoppedOk(care, k, p, c, Held(w, k));
    if s !in w.obj {
      AfterReleaseOk(care, k, p, c, s, Held(w, k));
    }
    PassStep(w, k, Stopped(p, pc), Judge(care));
  }

  lemma ReleaseUpdateKeeps(care: Care, w: World, k: Kind, s: Shared, wr: Write)
    requires Inv(care, w)
    ensures Inv(care, ReleaseUpdatePass(w, k, s, wr))
  {
    if k in w.pass && w.pass[k].pc == ReleaseUpdate(s) && w.pass[k].copy.Some? {
      var p := w.pass[k];
      assert CopiesOk(w, p);
      var fins := p.copy.value.fins - {Own(k)};
      if wr.applied && Accepts(w, s, p.copy.value, fins) {
        ReleaseAccepted(care, w, k, s, wr.ok);
      } else {
        var stop := Closing(Keep, FromDelete, false);
        ReleaseRefused(care, w, k, s, if wr.applied && s !in w.obj && s != Memcached then AfterRelease(k, s) else stop);
      }
    }
  }

  // The environment

  lemma StoredCR(care: Care, k: Kind, c: CR, p: Option<Pass>, held: set<Shared>)
    requires KindInv(care, k, Some(c), p, held)
    ensures KindInv(care, k, Stored(c), p, held)
  {
    if c.deleting && !c.own && !c.held {
      assert care != Core ==> held == {};
    }
  }

  lemma HeldStored(care: Care, k: Kind, c: CR, held: set<Shared>, on: bool)
    requires StoredOk(care, k, Some(c), held)
    ensures StoredOk(care, k, Some(HeldBy(c, on)), held)
  {}

  lemma HeldPass(care: Care, k: Kind, p: Pass, c: CR, held: set<Shared>, on: bool)
    requires PassOk(care, k, p, Some(c), held)
    ensures PassOk(care, k, p, Some(HeldBy(c, on)), held)
  {}

  lemma HeldByOthers(care: Care, k: Kind, c: CR, p: Option<Pass>, held: set<Shared>, on: bool)
    requires KindInv(care, k, Some(c), p, held)
    ensures KindInv(care, k, Some(HeldBy(c, on)), p, held)
  {
    HeldStored(care, k, c, held, on);
    if p.Some? {
      HeldPass(care, k, p.value, c, held, on);
    }
  }

  lemma CRMoved(care: Care, w: World, k: Kind, c: CR)
    requires Inv(care, w) && KindInv(care, k, Some(c), Look(w.pass, k), Held(w, k))
    ensures Inv(care, PutCR(w, k, Stored(c)))
  {
    StoredCR(care, k, c, Look(w.pass, k), Held(w, k));
    CRStep(w, k, Stored(c), Judge(care));
  }

  lemma CreateKeeps(care: Care, w: World, k: Kind, spec: Spec)
    requires Inv(care, w)
    ensures Inv(care, Created(w, k, spec))
  {
    Mine(care, w, k);
    if k !in w.cr && SpecFits(k, spec) {
      FreshOk(care, k, Look(w.pass, k), Held(w, k), spec);
      CRStep(w, k, Some(CR(1, spec, false, false, false, NEW_STATUS, NoTrace)), Judge(care));
    }
  }

  lemma CRChanged(care: Care, w: World, k: Kind, c: CR)
    requires Inv(care, w) && KindInv(care, k, Some(c), Look(w.pass, k), Held(w, k))
    ensures Inv(care, PutCR(w, k, Some(c)))
  {
    CRStep(w, k, Some(c), Judge(care));
  }

  lemma StaysFit(k: Kind, a: Spec, b: Spec)
    requires SpecFits(k, a) && SameShared(a, b)
    ensures SpecFits(k, b)
  {}

  lemma BumpKeeps(care: Care, w: World, k: Kind, spec: Spec)
    requires Inv(care, w) && k in w.cr && SpecFits(k, spec)
    ensures Inv(care, PutCR(w, k, Some(Bumped(w.cr[k], spec, w.cr[k].deleting))))
  {
    var c := w.cr[k];
    MineStored(care, w, k);
    BumpOk(care, k, c, Look(w.pass, k), Held(w, k), spec, c.deleting);
    CRChanged(care, w, k, Bumped(c, spec, c.deleting));
  }

  lemma MineStored(care: Care, w: World, k: Kind)
    requires Inv(care, w) && k in w.cr
    ensures KindInv(care, k, Some(w.cr[k]), Look(w.pass, k), Held(w, k))
  {
    Mine(care, w, k);
  }

  lemma EditKeeps(care: Care, w: World, k: Kind, spec: Spec)
    requires Inv(care, w)
    ensures Inv(care, Edited(w, k, spec))
  {
    if k in w.cr && spec != w.cr[k].spec && SameShared(w.cr[k].spec, spec) {
      Mine(care, w, k);
      StaysFit(k, w.cr[k].spec, spec);
      BumpKeeps(care, w, k, spec);
    }
  }

  lemma SpecEnvKeeps(care: Care, w: World, e: EnvAct)
    requires Inv(care, w) && (e.CreateCR? || e.EditSpec?)
    ensures Inv(care, EnvStep(w, e))
  {
    if e.CreateCR? {
      CreateKeeps(care, w, e.k, e.spec);
    } else {
      EditKeeps(care, w, e.k, e.spec);
    }
  }

  lemma LifeEnvKeeps(care: Care, w: World, e: EnvAct)
    requires Inv(care, w) && (e.RequestDelete? || e.Hold?)
    ensures Inv(care, EnvStep(w, e))
  {
    Mine(care, w, e.k);
    var k, p, held := e.k, Look(w.pass, e.k), Held(w, e.k);
    if k in w.cr {
      var c := w.cr[k];
      if e.RequestDelete? {
        if !c.deleting {
          BumpOk(care, k, c, p, held, c.spec, true);
          CRMoved(care, w, k, Bumped(c, c.spec, true));
        }
      } else if e.on ==> !c.deleting {
        HeldByOthers(care, k, c, p, held, e.on);
        CRMoved(care, w, k, HeldBy(c, e.on));
      }
    }
  }

  /** Objects change without touching the operator's finalizers. */
  lemma ForeignStep(care: Care, w: World, s: Shared, deleting: bool, fins: set<Finalizer>)
    requires Inv(care, w)
    requires Owners(fins) == if s in w.obj then Owners(w.obj[s].fins) else {}
    ensures Inv(care, SetFins(w, s, deleting, fins))
  {
    FinsStep(w, Watcher, s, deleting, fins);
    FinsStep(w, Api, s, deleting, fins);
    var v := SetFins(w, s, deleting, fins);
    assert forall j :: Same(w, v, j);
    Mine(care, w, Watcher);
    if Watcher in v.pass {
      assert CopiesOk(v, v.pass[Watcher]);
    }
    Reframe(w, v, Watcher, Judge(care));
  }

  lemma ObjEnvKeeps(care: Care, w: World, e: EnvAct)
    requires Inv(care, w) && (e.ObjCreate? || e.ObjDelete? || e.ObjForeign?)
    ensures Inv(care, EnvStep(w, e))
  {
    match e
    case ObjCreate(s, others) =>
      if s !in w.obj {
        ForeignStep(care, w, s, false, Foreigners(others));
      }
    case ObjDelete(s) =>
      if s in w.obj {
        ForeignStep(care, w, s, true, w.obj[s].fins);
      }
    case ObjForeign(s, others) =>
      if s in w.obj && (w.obj[s].deleting ==> Foreigners(others) <= w.obj[s].fins) {
        var fins := Foreigners(others) + Owners(w.obj[s].fins);
        assert Owners(fins) == Owners(w.obj[s].fins);
        ForeignStep(care, w, s, w.obj[s].deleting, fins);
      }
  }

  lemma ElsewhereKeeps(care: Care, w: World, e: EnvAct)
    requires Inv(care, w) && (e.StsObserve? || e.StsScale? || e.StsVanish? || e.JobEnds?)
    ensures Inv(care, EnvStep(w, e))
  {
    LocalStep(w, EnvStep(w, e), Watcher, Look(w.cr, Watcher), Look(w.pass, Watcher), Judge(care));
  }

  lemma StepKeeps(care: Care, w: World, l: Label)
    requires Inv(care, w) && Allowed(care, w, l)
    ensures Inv(care, Apply(w, l))
  {
    match l
    case Start(k, rbac, rbacOk) => StartKeeps(care, w, k, rbac, rbacOk);
    case Crash(k) => CrashKeeps(care, w, k);
    case WriteMeta(k, applied) => MetaKeeps(care, w, k, applied);
    case WriteStatus(k, applied, skipReady) => StatusKeeps(care, w, k, applied, skipReady);
    case ChildDoes(k, a) => ChildKeeps(care, w, k, a);
    case WatcherDoes(t) => TopKeeps(care, w, t);
    case ReleaseReads(k, s, r) => ReleaseReadKeeps(care, w, k, s, r);
    case ReleaseWrites(k, s, wr) => ReleaseUpdateKeeps(care, w, k, s, wr);
    case EnvDoes(e) =>
      if e.CreateCR? || e.EditSpec? {
        SpecEnvKeeps(care, w, e);
      } else if e.RequestDelete? || e.Hold? {
        LifeEnvKeeps(care, w, e);
      } else if e.ObjCreate? || e.ObjDelete? || e.ObjForeign? {
        ObjEnvKeeps(care, w, e);
      } else {
        ElsewhereKeeps(care, w, e);
      }
  }

  /** With Core every schedule is careful. With Fins no read on a delete path misses the finalizer that
      is there; with Shield, besides, no working pass trusts a copy that shows one that is gone. */
  predicate Careful(care: Care, ls: seq<Label>)
    decreases |ls|
  {
    if care == Core || ls == [] then true
    else Careful(care, ls[..|ls| - 1]) && Allowed(care, Run(EMPTY, ls[..|ls| - 1]), ls[|ls| - 1])
  }

  lemma {:induction false} RunKeeps(care: Care, ls: seq<Label>)
    requires Careful(care, ls)
    ensures Inv(care, Run(EMPTY, ls))
  {
    if ls == [] {
      forall k ensures KindInv(care, k, Look(EMPTY.cr, k), Look(EMPTY.pass, k), Held(EMPTY, k)) {}
    } else {
      RunKeeps(care, ls[..|ls| - 1]);
      StepKeeps(care, Run(EMPTY, ls[..|ls| - 1]), ls[|ls| - 1]);
    }
  }
}
