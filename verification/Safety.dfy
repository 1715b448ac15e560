/** Every label keeps the invariant. */
module Safety {
  import opened Base
  import opened Conditions
  import opened Resources
  import opened Stages
  import opened World
  import opened Invariants
  import opened Frames

  lemma Mine(care: Care, w: World, k: Kind)
    requires Inv(care, w)
    ensures KindInv(care, k, Look(w.cr, k), Look(w.pass, k), Held(w, k))
    ensures k in w.pass ==> CopiesOk(w, w.pass[k])
  {
    assert Judge(care)(k, Look(w.cr, k), Look(w.pass, k), Held(w, k));
  }

  // Opening

  lemma InitQuiet(k: Kind)
    ensures Quiet(k, InitFor(k))
  {
    forall t ensures !Is(InitFor(k), t) {}
    assert Listed(k, InputReady) && (k == Watcher || Listed(k, DeploymentReady));
    assert k == Watcher ==> Listed(k, APIReady) && Listed(k, EngineReady) && Listed(k, ApplierReady);
  }

  lemma RbacQuiet(k: Kind, st: Status, rbac: Rbac)
    requires Quiet(k, st.conds)
    ensures Quiet(k, RbacStage(st, rbac).conds)
  {}

  /** Nothing in a quiet table counts for the pipeline, for readiness or for protection. */
  lemma QuietFacts(care: Care, k: Kind, st: Status, held: set<Shared>)
    requires Quiet(k, st.conds)
    ensures Upto(k, st.conds, 0) && Honest(k, st.conds) && Shielded(care, k, st.conds, held)
    ensures Proven(k, st, NoTrace)
  {}

  lemma OpenedWork(care: Care, k: Kind, c: CR, p: Pass, held: set<Shared>)
    requires StoredOk(care, k, Some(c), held) && c.own && !c.deleting
    requires p.snap == c && p.trace == NoTrace && p.st.observed == c.gen && p.st.hash == c.status.hash
    requires Quiet(k, p.st.conds)
    requires p.pc == Working(if k == Watcher then Databases else Inputs)
    ensures PassOk(care, k, p, Some(c), held)
  {
    QuietFacts(care, k, p.st, held);
    assert Anchored(k, p, Some(c));
  }

  lemma OpenedFacts(k: Kind, c: CR, rbac: Rbac, rbacOk: bool)
    ensures var p := Opened(k, c, rbac, rbacOk);
      && p.snap == c && p.trace == NoTrace && p.st.observed == c.gen && p.st.hash == c.status.hash
      && Quiet(k, p.st.conds)
  {
    InitQuiet(k);
    RbacQuiet(k, Begin(k, c.gen, c.status), rbac);
  }

  /** Where a pass can stand right after its opening. */
  lemma OpenedAt(k: Kind, c: CR, rbac: Rbac, rbacOk: bool)
    ensures var pc := Opened(k, c, rbac, rbacOk).pc;
      || (pc.Closing? && pc.origin == FromGate && pc.meta != DropOwn)
      || (pc == Working(if k == Watcher then Databases else Inputs) && c.own && !c.deleting)
      || (c.deleting && pc == DropDb && k == Watcher)
      || (c.deleting && pc.Release? && pc.s in Uses(k) && Uses(k) <= Left(pc.s))
  {}

  lemma OpenedOk(care: Care, k: Kind, c: CR, rbac: Rbac, rbacOk: bool, held: set<Shared>)
    requires StoredOk(care, k, Some(c), held)
    ensures KindInv(care, k, Some(c), Some(Opened(k, c, rbac, rbacOk)), held)
  {
    OpenedFacts(k, c, rbac, rbacOk);
    OpenedAt(k, c, rbac, rbacOk);
    var p := Opened(k, c, rbac, rbacOk);
    if p.pc.Working? {
      OpenedWork(care, k, c, p, held);
    }
  }

  lemma StartKeeps(care: Care, w: World, k: Kind, rbac: Rbac, rbacOk: bool)
    requires Inv(care, w)
    ensures Inv(care, DoStart(w, k, rbac, rbacOk))
  {
    if k in w.cr && k !in w.pass {
      Mine(care, w, k);
      OpenedOk(care, k, w.cr[k], rbac, rbacOk, Held(w, k));
      PassStep(w, k, Opened(k, w.cr[k], rbac, rbacOk), Judge(care));
    }
  }

  lemma CrashKeeps(care: Care, w: World, k: Kind)
    requires Inv(care, w)
    ensures Inv(care, w.(pass := w.pass - {k}))
  {
    Mine(care, w, k);
    CrashStep(w, k, Judge(care));
  }

  // Closing

  lemma SettledOk(care: Care, k: Kind, c: Option<CR>, p: Pass, held: set<Shared>)
    requires KindInv(care, k, c, Some(p), held) && p.pc.Closing?
    ensures KindInv(care, k, c, Some(Settled(p)), held)
  {}

  /** Giving up the CR's own finalizer comes after every shared one is gone. */
  lemma DropOk(care: Care, k: Kind, c: CR, p: Pass, held: set<Shared>)
    requires KindInv(care, k, Some(c), Some(p), held) && p.pc.Closing? && p.pc.meta == DropOwn
    ensures care != Core ==> held == {}
    ensures KindInv(care, k, Some(c.(own := false)), Some(Settled(p)), held)
    ensures KindInv(care, k, None, Some(Settled(p)), held)
  {}

  lemma AddOk(care: Care, k: Kind, c: CR, p: Pass, held: set<Shared>)
    requires KindInv(care, k, Some(c), Some(p), held) && p.pc.Closing? && p.pc.meta == AddOwn && !c.deleting
    ensures KindInv(care, k, Some(c.(own := true)), Some(Settled(p)), held)
  {}

  lemma MetaOk(care: Care, k: Kind, c: CR, p: Pass, held: set<Shared>)
    requires KindInv(care, k, Some(c), Some(p), held) && p.pc.Closing? && p.pc.meta != Keep
    ensures KindInv(care, k, MetaCR(c, p.pc.meta), Some(Settled(p)), held)
  {
    if p.pc.meta == DropOwn {
      DropOk(care, k, c, p, held);
    } else if c.deleting {
      SettledOk(care, k, Some(c), p, held);
    } else {
      AddOk(care, k, c, p, held);
    }
  }

  lemma MetaKeeps(care: Care, w: World, k: Kind, applied: bool)
    requires Inv(care, w)
    ensures Inv(care, DoWriteMeta(w, k, applied))
  {
    if k in w.pass && w.pass[k].pc.Closing? && w.pass[k].pc.meta != Keep {
      Mine(care, w, k);
      var p := w.pass[k];
      if applied && k in w.cr {
        MetaOk(care, k, w.cr[k], p, Held(w, k));
        CRPassStep(w, k, MetaCR(w.cr[k], p.pc.meta), Settled(p), Judge(care));
      } else {
        SettledOk(care, k, Look(w.cr, k), p, Held(w, k));
        PassStep(w, k, Settled(p), Judge(care));
      }
    }
  }

  /** The deferred write touches Ready alone, and makes it True only over an all-True table. */
  lemma DeferredShape(st: Status, skipReady: bool)
    ensures var d := Deferred(st, skipReady);
      && d.observed == st.observed
      && (d == st || (exists s :: d == Put(st, Ready, s) && (s == True ==> AllSubTrue(st.conds))))
  {
    MirrorTrue(st.conds, skipReady);
    var m := Mirror(st.conds, skipReady);
    if Get(st.conds, Ready) == Unknown && m.Some? {
      if m.value == True {
        forall t | t in st.conds && t != Ready ensures st.conds[t] == True {
          assert t in Seen(st.conds, skipReady);
        }
      }
      assert Deferred(st, skipReady) == Put(st, Ready, m.value);
    }
  }

  lemma PutReadyAll(st: Status, s: State)
    ensures AllSubTrue(Put(st, Ready, s).conds) <==> AllSubTrue(st.conds)
  {
    var d := Put(st, Ready, s);
    forall u | u != Ready ensures (u in d.conds <==> u in st.conds) && (Is(d.conds, u) <==> Is(st.conds, u)) {}
    assert AllSubTrue(st.conds) <==> forall u | u in st.conds && u != Ready :: Is(st.conds, u);
    assert AllSubTrue(d.conds) <==> forall u | u in d.conds && u != Ready :: Is(d.conds, u);
  }

  lemma PutReady(care: Care, k: Kind, st: Status, s: State, t: Trace, held: set<Shared>)
    ensures var d := Put(st, Ready, s);
      && Proven(k, d, t) == Proven(k, st, t)
      && Shielded(care, k, d.conds, held) == Shielded(care, k, st.conds, held)
      && Full(k, d.conds) == Full(k, st.conds) && Chain(k, d.conds) == Chain(k, st.conds)
      && (AllSubTrue(d.conds) <==> AllSubTrue(st.conds))
  {
    PutReadyAll(st, s);
    var d := Put(st, Ready, s);
    forall u | u != Ready ensures (u in d.conds <==> u in st.conds) && (Is(d.conds, u) <==> Is(st.conds, u)) {}
  }

  lemma DeferredOk(care: Care, k: Kind, st: Status, t: Trace, skipReady: bool, held: set<Shared>)
    requires Honest(k, st.conds) && Proven(k, st, t) && Shielded(care, k, st.conds, held)
    ensures var d := Deferred(st, skipReady);
      Honest(k, d.conds) && Proven(k, d, t) && Shielded(care, k, d.conds, held) && d.observed == st.observed
  {
    DeferredShape(st, skipReady);
    var d := Deferred(st, skipReady);
    if d != st {
      var s :| d == Put(st, Ready, s) && (s == True ==> AllSubTrue(st.conds));
      PutReady(care, k, st, s, t, held);
    }
  }

  lemma SavedOk(care: Care, k: Kind, p: Pass, c: CR, skipReady: bool, held: set<Shared>)
    requires KindInv(care, k, Some(c), Some(p), held) && p.pc.Closing?
    ensures StoredOk(care, k, Some(SavedCR(c, p, skipReady)), held)
  {
    if p.pc.origin != FromWork {
      QuietFacts(care, k, p.st, held);
    }
    DeferredOk(care, k, p.st, p.trace, skipReady, held);
  }

  /** A pass on its way out does not look at its CR's status again. */
  lemma StillClosing(care: Care, k: Kind, p: Pass, c: Option<CR>, held: set<Shared>, skipReady: bool)
    requires PassOk(care, k, p, c, held) && p.pc.Closing?
    ensures PassOk(care, k, Saved(p), c, held)
    ensures c.Some? ==> PassOk(care, k, Saved(p), Some(SavedCR(c.value, p, skipReady)), held)
  {}

  lemma StatusKeeps(care: Care, w: World, k: Kind, applied: bool, skipReady: bool)
    requires Inv(care, w)
    ensures Inv(care, DoWriteStatus(w, k, applied, skipReady))
  {
    if k in w.pass && w.pass[k].pc.Closing? && !w.pass[k].pc.saved {
      Mine(care, w, k);
      var p := w.pass[k];
      StillClosing(care, k, p, Look(w.cr, k), Held(w, k), skipReady);
      if applied && k in w.cr {
        SavedOk(care, k, p, w.cr[k], skipReady, Held(w, k));
        CRPassStep(w, k, Some(SavedCR(w.cr[k], p, skipReady)), Saved(p), Judge(care));
      } else {
        PassStep(w, k, Saved(p), Judge(care));
      }
    }
  }
}
