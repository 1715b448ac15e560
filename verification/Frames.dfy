/** What each step leaves alone. Nothing here depends on what the invariant says about a kind. */
module Frames {
  import opened Base
  import opened Resources
  import opened Stages
  import opened World
  import opened Invariants

  /** Objects only move to fresh versions. */
  predicate ObjStep(w: World, v: World) {
    && w.rev <= v.rev
    && forall s :: s in v.obj ==> (s in w.obj && v.obj[s] == w.obj[s]) || w.rev < v.obj[s].rv <= v.rev
  }

  /** Kind j sees no change. */
  predicate Same(w: World, v: World, j: Kind) {
    Look(v.cr, j) == Look(w.cr, j) && Look(v.pass, j) == Look(w.pass, j) && Held(v, j) == Held(w, j)
  }

  lemma Reframe(w: World, v: World, k: Kind, good: KindPred)
    requires InvBy(w, good) && ObjStep(w, v)
    requires forall j :: j != k ==> Same(w, v, j)
    requires forall s :: s in v.obj ==> v.obj[s].rv <= v.rev
    requires good(k, Look(v.cr, k), Look(v.pass, k), Held(v, k))
    requires k in v.pass ==> CopiesOk(v, v.pass[k])
    ensures InvBy(v, good)
  {
    forall j ensures good(j, Look(v.cr, j), Look(v.pass, j), Held(v, j)) {
      if j != k {
        assert Same(w, v, j);
        assert good(j, Look(w.cr, j), Look(w.pass, j), Held(w, j));
      }
    }
    forall j | j in v.pass ensures CopiesOk(v, v.pass[j]) {
      if j != k {
        assert Same(w, v, j);
        assert j in w.pass && CopiesOk(w, w.pass[j]);
      }
    }
  }

  lemma ObjRevs(w: World, v: World)
    requires v.obj == w.obj && v.rev == w.rev
    ensures ObjStep(w, v) && forall k :: Held(v, k) == Held(w, k)
  {}

  /** Only kind k's CR and pass changed, to c and p. */
  predicate Touches(w: World, v: World, k: Kind, c: Option<CR>, p: Option<Pass>) {
    && v.obj == w.obj && v.rev == w.rev
    && (forall j :: j != k ==> Look(v.cr, j) == Look(w.cr, j) && Look(v.pass, j) == Look(w.pass, j))
    && Look(v.cr, k) == c && Look(v.pass, k) == p
  }

  lemma LocalStep(w: World, v: World, k: Kind, c: Option<CR>, p: Option<Pass>, good: KindPred)
    requires InvBy(w, good) && Touches(w, v, k, c, p)
    requires good(k, c, p, Held(w, k))
    requires p.Some? ==> CopiesOk(w, p.value)
    ensures InvBy(v, good)
  {
    ObjRevs(w, v);
    assert forall j :: j != k ==> Same(w, v, j);
    Reframe(w, v, k, good);
  }

  lemma PassStep(w: World, k: Kind, p: Pass, good: KindPred)
    requires InvBy(w, good)
    requires good(k, Look(w.cr, k), Some(p), Held(w, k)) && CopiesOk(w, p)
    ensures InvBy(SetPass(w, k, p), good)
  {
    LocalStep(w, SetPass(w, k, p), k, Look(w.cr, k), Some(p), good);
  }

  lemma CRPassStep(w: World, k: Kind, c: Option<CR>, p: Pass, good: KindPred)
    requires InvBy(w, good)
    requires good(k, c, Some(p), Held(w, k)) && CopiesOk(w, p)
    ensures InvBy(PutCR(SetPass(w, k, p), k, c), good)
  {
    LocalStep(w, PutCR(SetPass(w, k, p), k, c), k, c, Some(p), good);
  }

  lemma CRStep(w: World, k: Kind, c: Option<CR>, good: KindPred)
    requires InvBy(w, good)
    requires good(k, c, Look(w.pass, k), Held(w, k))
    ensures InvBy(PutCR(w, k, c), good)
  {
    LocalStep(w, PutCR(w, k, c), k, c, Look(w.pass, k), good);
  }

  lemma CrashStep(w: World, k: Kind, good: KindPred)
    requires InvBy(w, good) && good(k, Look(w.cr, k), None, Held(w, k))
    ensures InvBy(w.(pass := w.pass - {k}), good)
  {
    LocalStep(w, w.(pass := w.pass - {k}), k, Look(w.cr, k), None, good);
  }

  // Shared objects

  lemma OwnersDecide(k: Kind, j: Kind, a: set<Finalizer>, b: set<Finalizer>)
    requires j != k && Owners(a) - {Own(k)} == Owners(b) - {Own(k)}
    ensures Own(j) in a <==> Own(j) in b
  {
    assert Own(j) in a <==> Own(j) in Owners(a) - {Own(k)};
    assert Own(j) in b <==> Own(j) in Owners(b) - {Own(k)};
  }

  lemma HeldOfOthers(w: World, k: Kind, s: Shared, deleting: bool, fins: set<Finalizer>, j: Kind)
    requires j != k
    requires s in w.obj ==> Owners(fins) - {Own(k)} == Owners(w.obj[s].fins) - {Own(k)}
    requires s !in w.obj ==> Owners(fins) <= {Own(k)}
    ensures Held(SetFins(w, s, deleting, fins), j) == Held(w, j)
  {
    HeldByOne(w, j, s, deleting, fins);
    if s in w.obj {
      OwnersDecide(k, j, fins, w.obj[s].fins);
    } else {
      assert Own(j) in fins ==> Own(j) in Owners(fins);
    }
  }

  lemma HeldByOne(w: World, k: Kind, s: Shared, deleting: bool, fins: set<Finalizer>)
    ensures Held(SetFins(w, s, deleting, fins), k) == if Own(k) in fins then Held(w, k) + {s} else Held(w, k) - {s}
  {}

  /** Storing finalizers that differ from the old ones only in kind k's own and in foreign ones
      changes what k holds and nothing for the others. */
  lemma FinsStep(w: World, k: Kind, s: Shared, deleting: bool, fins: set<Finalizer>)
    requires forall s :: s in w.obj ==> w.obj[s].rv <= w.rev
    requires s in w.obj ==> Owners(fins) - {Own(k)} == Owners(w.obj[s].fins) - {Own(k)}
    requires s !in w.obj ==> Owners(fins) <= {Own(k)}
    ensures var v := SetFins(w, s, deleting, fins);
      && ObjStep(w, v) && (forall t :: t in v.obj ==> v.obj[t].rv <= v.rev)
      && v.cr == w.cr && v.pass == w.pass
      && (forall j :: j != k ==> Held(v, j) == Held(w, j))
      && Held(v, k) == if Own(k) in fins then Held(w, k) + {s} else Held(w, k) - {s}
  {
    var v := SetFins(w, s, deleting, fins);
    forall j | j != k ensures Held(v, j) == Held(w, j) {
      HeldOfOthers(w, k, s, deleting, fins, j);
    }
    HeldByOne(w, k, s, deleting, fins);
  }

  /** Kind k moved its pass while one shared object changed under it. */
  lemma ObjectStep(w: World, u: World, k: Kind, p: Pass, good: KindPred)
    requires InvBy(w, good)
    requires u.cr == w.cr && u.pass == w.pass && ObjStep(w, u)
    requires forall s :: s in u.obj ==> u.obj[s].rv <= u.rev
    requires forall j :: j != k ==> Held(u, j) == Held(w, j)
    requires good(k, Look(w.cr, k), Some(p), Held(u, k)) && CopiesOk(u, p)
    ensures InvBy(SetPass(u, k, p), good)
  {
    var v := SetPass(u, k, p);
    ObjRevs(u, v);
    assert forall j :: j != k ==> Same(w, v, j);
    Reframe(w, v, k, good);
  }
}
