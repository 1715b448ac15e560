/** Convergence of a child: with its inputs frozen and good, every schedule of passes, crashed passes
    and StatefulSet controller moves that keeps giving both a turn ends Ready, and then nothing is
    written any more. */
module Convergence {
  import opened Base
  import opened Conditions
  import opened Resources
  import opened Stages
  import opened Secrets
  import opened Endpoints
  import opened SubPass
  import opened SubTheorems

  /** The CR, its StatefulSet, and whether Memcached carries the kind's finalizer. */
  datatype Cluster = Cluster(c: Sub, sts: Option<Sts>, memOwn: bool)

  /** Inputs are good, and every other party answers well. */
  predicate Frozen(c: Sub, r: Replies) {
    match r.mem
    case MemReady =>
      && Fits(c, r) && !c.deleting
      && InputsRead(c, r) && r.memUpdateOk && r.config.ConfigOk?
      && (c.kind == Api ==>
            && TlsReplyOf(c, r) == TlsOk && ExposeAll(c.spec, r.order, r.ports, r.rule) == ServicesOk
            && Published(c, r) == ObjectIs(Some(True), 0))
    case _ => false
  }

  /** The replies of the frozen environment in a given cluster. */
  function Answers(x: Cluster, r: Replies): Replies {
    r.(memOwn := x.memOwn, deploy := (work: Workload) => StsIs(Patch(x.sts, work)))
  }

  function Goal(c: Sub, r: Replies): Digest
    requires Frozen(c, r)
  {
    InputHash(c, r)
  }

  function Target(c: Sub, r: Replies): Workload
    requires Frozen(c, r)
  {
    WorkloadOf(c.spec, PodCa(c, r), Goal(c, r))
  }

  function AllTrue(k: Kind): Table {
    map t: Type | Listed(k, t) :: True
  }

  function DoneStatus(c: Sub, r: Replies): Status
    requires Frozen(c, r)
  {
    Status(AllTrue(c.kind), c.gen, Some(Goal(c, r)), c.spec.replicas)
  }

  // One pass under frozen inputs

  predicate Opening(c: Sub) {
    !c.own || c.st.conds == map[]
  }

  lemma DeferredKeeps(st: Status, t: Type, skipReady: bool)
    requires t in st.conds
    ensures Deferred(st, skipReady).conds != map[] && Deferred(st, skipReady).hash == st.hash
  {
    assert t in Deferred(st, skipReady).conds;
  }

  lemma OpeningPass(c: Sub, r: Replies, timeout: Delay, skipReady: bool)
    requires Frozen(c, r) && Opening(c)
    ensures var o := Pass(c, r, timeout, skipReady);
      o.own && o.st.conds != map[] && o.st.hash == c.st.hash && o.sent == NOTHING
  {
    var st := Begin(c.kind, c.gen, c.st);
    assert Body(c, r, timeout) == Outcome(st, Exit(0, false), true, NOTHING);
    assert Listed(c.kind, Ready);
    DeferredKeeps(st, Ready, skipReady);
  }

  /** The status of a working pass when it comes to its hash. */
  function AtHash(c: Sub): Status {
    var st := Put(Put(Begin(c.kind, c.gen, c.st), InputReady, True), MemcachedReady, True);
    if c.kind == Api then Put(st, TLSInputReady, True) else st
  }

  lemma TwoSteps(k: Kind, st: Status)
    requires Standing(k, st, 0)
    ensures Standing(k, Put(Put(st, InputReady, True), MemcachedReady, True), 2)
  {
    Sets(k, st, 0, True);
    Sets(k, Put(st, InputReady, True), 1, True);
  }

  lemma ThreeSteps(k: Kind, st: Status)
    requires Standing(k, st, 0)
    ensures var st2 := Put(Put(st, InputReady, True), MemcachedReady, True);
      Standing(k, if k == Api then Put(st2, TLSInputReady, True) else st2, ConfigAt(k))
  {
    TwoSteps(k, st);
    if k == Api {
      Sets(k, Put(Put(st, InputReady, True), MemcachedReady, True), 2, True);
    }
  }

  lemma AtHashStands(c: Sub)
    requires c.kind != Watcher
    ensures Standing(c.kind, AtHash(c), ConfigAt(c.kind))
  {
    BeginStands(c.kind, c.gen, c.st);
    ThreeSteps(c.kind, Begin(c.kind, c.gen, c.st));
  }

  lemma GoodBody(c: Sub, r: Replies, timeout: Delay)
    requires Frozen(c, r) && !Opening(c)
    ensures var o := Body(c, r, timeout);
      var sent := NOTHING.(mem := !r.memOwn);
      o == if c.st.hash == Some(Goal(c, r))
           then FromDeploy(c, r, Put(AtHash(c), ServiceConfigReady, True), Goal(c, r), sent)
           else Outcome(AtHash(c).(hash := Some(Goal(c, r))), Exit(0, false), true, sent)
  {
    var st := Begin(c.kind, c.gen, c.st);
    var st1 := Put(st, InputReady, True);
    assert Body(c, r, timeout) == FromMemcached(c, r, st1);
    assert FromMemcached(c, r, st1) == FromConfig(c, r, Put(st1, MemcachedReady, True), NOTHING.(mem := !r.memOwn));
  }

  lemma HashPass(c: Sub, r: Replies, timeout: Delay, skipReady: bool)
    requires Frozen(c, r) && !Opening(c) && c.st.hash != Some(Goal(c, r))
    ensures var o := Pass(c, r, timeout, skipReady);
      o.own && o.st.conds != map[] && o.st.hash == Some(Goal(c, r)) && o.sent == NOTHING.(mem := !r.memOwn)
  {
    GoodBody(c, r, timeout);
    DeferredKeeps(AtHash(c).(hash := Some(Goal(c, r))), InputReady, skipReady);
  }

  lemma DeliverPass(c: Sub, r: Replies, timeout: Delay, skipReady: bool)
    requires Frozen(c, r) && !Opening(c) && c.st.hash == Some(Goal(c, r))
    requires r.deploy(Target(c, r)).StsIs?
    ensures var o := Pass(c, r, timeout, skipReady);
      && o.own && o.st.conds != map[] && o.st.hash == c.st.hash
      && o.sent.work == Some(Target(c, r)) && o.sent.mem == !r.memOwn
      && (StsDone(r.deploy(Target(c, r)).obj, c.spec.replicas) ==> o.st == DoneStatus(c, r))
  {
    GoodBody(c, r, timeout);
    AtHashStands(c);
    var st := Put(AtHash(c), ServiceConfigReady, True);
    var sent := NOTHING.(mem := !r.memOwn);
    Sets(c.kind, AtHash(c), ConfigAt(c.kind), True);
    DeployWrites(c, r, st, Goal(c, r), sent);
    assert AtHash(c).hash == c.st.hash && AtHash(c).observed == c.gen;
    if StsDone(r.deploy(Target(c, r)).obj, c.spec.replicas) {
      DoneDeploy(c, r, st, sent);
    } else {
      PendingDeploy(c, r, st, sent);
      DeferredKeeps(FromDeploy(c, r, st, Goal(c, r), sent).st, DeploymentReady, skipReady);
    }
  }

  lemma PendingDeploy(c: Sub, r: Replies, st: Status, sent: Sent)
    requires Frozen(c, r) && r.deploy(Target(c, r)).StsIs?
    requires !StsDone(r.deploy(Target(c, r)).obj, c.spec.replicas)
    ensures var o := FromDeploy(c, r, st, Goal(c, r), sent);
      DeploymentReady in o.st.conds && o.own == c.own && o.sent.mem == sent.mem
  {}

  lemma DoneDeploy(c: Sub, r: Replies, st: Status, sent: Sent)
    requires Frozen(c, r) && Standing(c.kind, st, ConfigAt(c.kind) + 1)
    requires st.hash == Some(Goal(c, r)) && st.observed == c.gen
    requires r.deploy(Target(c, r)).StsIs? && StsDone(r.deploy(Target(c, r)).obj, c.spec.replicas)
    ensures var o := FromDeploy(c, r, st, Goal(c, r), sent);
      o.st == DoneStatus(c, r) && o.own == c.own && o.sent.mem == sent.mem
  {
    var f := DeployStage(c.kind, st, c.spec.replicas, r.deploy(Target(c, r)));
    DeployStands(c.kind, st, c.spec.replicas, r.deploy(Target(c, r)));
    if c.kind == Api {
      var g := ExposeStage(f.st, ServicesOk);
      ExposeStands(f.st, ServicesOk);
      Sets(Api, g.st, 6, True);
      DoneFinal(Api, Put(g.st, KeystoneEndpointReady, True));
    } else {
      DoneFinal(c.kind, f.st);
    }
  }

  lemma DoneFinal(k: Kind, st: Status)
    requires Standing(k, st, Len(k))
    ensures FinalStage(st).st == st.(conds := AllTrue(k))
  {
    AllSub(k, st, Len(k));
    Pipeline(k);
  }

  // Steps

  /** A pass of which the parts that were written before a crash are named; all of them make a full
      pass. PassIsOneStep says why a pass may be taken for one step. */
  datatype Step = Reconcile(mem: bool, work: bool, own: bool, status: bool) | StsMove

  const FULL := Reconcile(true, true, true, true)

  /** The StatefulSet controller notices a new generation, or brings one replica up or down. */
  function Advance(o: Sts): Sts {
    if o.observed != o.gen then o.(observed := o.gen)
    else if o.ready < o.work.replicas then o.(ready := o.ready + 1)
    else if o.ready > o.work.replicas then o.(ready := o.ready - 1)
    else o
  }

  function Next(x: Cluster, r: Replies, timeout: Delay, skipReady: bool, s: Step): Cluster {
    match s
    case StsMove => if x.sts.Some? then x.(sts := Some(Advance(x.sts.value))) else x
    case Reconcile(mem, work, own, status) =>
      var o := Pass(x.c, Answers(x, r), timeout, skipReady);
      Cluster(x.c.(own := if own then o.own else x.c.own, st := if status then o.st else x.c.st),
              if work && o.sent.work.Some? then Some(Patch(x.sts, o.sent.work.value)) else x.sts,
              x.memOwn || (mem && o.sent.mem))
  }

  function Steps(x: Cluster, r: Replies, timeout: Delay, skipReady: bool, ss: seq<Step>): Cluster
    decreases |ss|
  {
    if ss == [] then x
    else Steps(Next(x, r, timeout, skipReady, ss[0]), r, timeout, skipReady, ss[1..])
  }

  // A pass in pieces

  /** The first piece of a pass with outcome o: what it writes to other objects. */
  function Send(x: Cluster, o: Outcome, mem: bool, work: bool): Cluster {
    Cluster(x.c, if work && o.sent.work.Some? then Some(Patch(x.sts, o.sent.work.value)) else x.sts,
            x.memOwn || (mem && o.sent.mem))
  }

  /** The last one: the deferred write. */
  function Write(x: Cluster, o: Outcome, own: bool, status: bool): Cluster {
    x.(c := x.c.(own := if own then o.own else x.c.own, st := if status then o.st else x.c.st))
  }

  function Moves(n: nat): seq<Step> {
    if n == 0 then [] else [StsMove] + Moves(n - 1)
  }

  /** Nothing is lost by taking a pass for one step: the StatefulSet's moves between the patch and the
      deferred write, however many, might as well come after the pass. */
  lemma {:induction false} PassIsOneStep(x: Cluster, r: Replies, timeout: Delay, skipReady: bool, s: Step, n: nat)
    requires s.Reconcile?
    ensures var o := Pass(x.c, Answers(x, r), timeout, skipReady);
      Write(Steps(Send(x, o, s.mem, s.work), r, timeout, skipReady, Moves(n)), o, s.own, s.status) ==
      Steps(Next(x, r, timeout, skipReady, s), r, timeout, skipReady, Moves(n))
  {
    var o := Pass(x.c, Answers(x, r), timeout, skipReady);
    WriteCommutes(Send(x, o, s.mem, s.work), o, r, timeout, skipReady, s.own, s.status, n);
    assert Next(x, r, timeout, skipReady, s) == Write(Send(x, o, s.mem, s.work), o, s.own, s.status);
  }

  lemma {:induction false} WriteCommutes(x: Cluster, o: Outcome, r: Replies, timeout: Delay, skipReady: bool,
                                         own: bool, status: bool, n: nat)
    ensures Write(Steps(x, r, timeout, skipReady, Moves(n)), o, own, status) ==
            Steps(Write(x, o, own, status), r, timeout, skipReady, Moves(n))
    ensures Steps(x, r, timeout, skipReady, Moves(n)).c == x.c
    decreases n
  {
    if n > 0 {
      var y := Next(x, r, timeout, skipReady, StsMove);
      assert Moves(n)[0] == StsMove && Moves(n)[1..] == Moves(n - 1);
      assert Next(Write(x, o, own, status), r, timeout, skipReady, StsMove) == Write(y, o, own, status);
      WriteCommutes(y, o, r, timeout, skipReady, own, status, n - 1);
    }
  }

  // The measure

  function Dist(a: nat, b: nat): nat {
    if a < b then b - a else a - b
  }

  /** How far the StatefulSet controller is from done. */
  function Lag(o: Sts): nat {
    Dist(o.ready, o.work.replicas) + if o.observed == o.gen then 0 else 1
  }

  function Ahead(sts: Option<Sts>, target: Workload): nat {
    if sts.None? then 2 + target.replicas
    else if sts.value.work == target then Lag(sts.value)
    else 2 + Lag(sts.value) + Dist(sts.value.work.replicas, target.replicas)
  }

  /** Everything is in place and reported. */
  predicate Final(x: Cluster, r: Replies)
    requires Frozen(x.c, r)
  {
    match x.sts
    case None => false
    case Some(o) =>
      && x.c.own && x.memOwn && x.c.st == DoneStatus(x.c, r)
      && o.work == Target(x.c, r) && Lag(o) == 0
  }

  function Measure(x: Cluster, r: Replies): nat
    requires Frozen(x.c, r)
  {
    (if Opening(x.c) then 1 else 0)
    + (if x.c.st.hash == Some(Goal(x.c, r)) then 0 else 1)
    + Ahead(x.sts, Target(x.c, r))
    + (if Final(x, r) then 0 else 1)
  }

  /** Only the StatefulSet controller can make progress. */
  predicate Waiting(x: Cluster, r: Replies)
    requires Frozen(x.c, r)
  {
    match x.sts
    case None => false
    case Some(o) =>
      !Opening(x.c) && x.c.st.hash == Some(Goal(x.c, r)) && o.work == Target(x.c, r) && Lag(o) > 0
  }

  /** Goal and target do not depend on what changes in a cluster. */
  lemma Unmoved(x: Cluster, r: Replies, own: bool, st: Status)
    requires Frozen(x.c, r)
    ensures var d := x.c.(own := own, st := st);
      && Frozen(d, Answers(x, r)) && Frozen(d, r)
      && Goal(d, Answers(x, r)) == Goal(x.c, r) && Target(d, Answers(x, r)) == Target(x.c, r)
      && Goal(d, r) == Goal(x.c, r) && Target(d, r) == Target(x.c, r)
      && DoneStatus(d, Answers(x, r)) == DoneStatus(x.c, r) == DoneStatus(d, r)
  {}

  lemma PatchAhead(sts: Option<Sts>, target: Workload)
    ensures Ahead(Some(Patch(sts, target)), target) <= Ahead(sts, target)
    ensures sts.None? || sts.value.work != target ==> Ahead(Some(Patch(sts, target)), target) < Ahead(sts, target)
  {}

  lemma AdvanceAhead(o: Sts, target: Workload)
    ensures Ahead(Some(Advance(o)), target) <= Ahead(Some(o), target)
    ensures o.work == target && Lag(o) > 0 ==> Ahead(Some(Advance(o)), target) < Ahead(Some(o), target)
    ensures Lag(o) == 0 ==> Advance(o) == o
  {}

  /** What a pass asks for, whatever part of it is written. */
  lemma PassEffect(x: Cluster, r: Replies, timeout: Delay, skipReady: bool)
    requires Frozen(x.c, r)
    ensures var o, h := Pass(x.c, Answers(x, r), timeout, skipReady), Some(Goal(x.c, r));
      && o.own && o.st.conds != map[]
      && (Opening(x.c) ==> o.st.hash == x.c.st.hash && o.sent == NOTHING)
      && (!Opening(x.c) ==>
            && o.st.hash == h && o.sent.mem == !x.memOwn
            && o.sent.work == (if x.c.st.hash == h then Some(Target(x.c, r)) else None)
            && (x.c.st.hash == h && StsDone(Patch(x.sts, Target(x.c, r)), x.c.spec.replicas) ==>
                  o.st == DoneStatus(x.c, r)))
  {
    var a := Answers(x, r);
    Unmoved(x, r, x.c.own, x.c.st);
    if Opening(x.c) {
      OpeningPass(x.c, a, timeout, skipReady);
    } else if x.c.st.hash != Some(Goal(x.c, r)) {
      HashPass(x.c, a, timeout, skipReady);
    } else {
      DeliverPass(x.c, a, timeout, skipReady);
    }
  }

  /** The terms of the measure that a step may change. */
  lemma MoveKeeps(x: Cluster, r: Replies, timeout: Delay, skipReady: bool)
    requires Frozen(x.c, r)
    ensures var y := Next(x, r, timeout, skipReady, StsMove);
      && y.c == x.c && Measure(y, r) <= Measure(x, r)
      && (Waiting(x, r) ==> Measure(y, r) < Measure(x, r))
      && (Measure(y, r) == Measure(x, r) ==> Waiting(y, r) == Waiting(x, r))
      && (Final(x, r) ==> y == x)
  {
    if x.sts.Some? {
      AdvanceAhead(x.sts.value, Target(x.c, r));
    }
  }

  /** How a pass from x to y moves the measure. */
  predicate Nearer(x: Cluster, y: Cluster, r: Replies, full: bool)
    requires Frozen(x.c, r) && Frozen(y.c, r)
  {
    && Measure(y, r) <= Measure(x, r)
    && (full && !Waiting(x, r) && !Final(x, r) ==> Measure(y, r) < Measure(x, r))
    && (Measure(y, r) == Measure(x, r) ==> Waiting(y, r) == Waiting(x, r))
    && (Final(x, r) ==> y == x)
  }

  lemma ReconcileFrozen(x: Cluster, r: Replies, timeout: Delay, skipReady: bool, s: Step)
    requires Frozen(x.c, r) && s.Reconcile?
    ensures var y := Next(x, r, timeout, skipReady, s);
      && y.c == x.c.(own := y.c.own, st := y.c.st) && Frozen(y.c, r)
      && Goal(y.c, r) == Goal(x.c, r) && Target(y.c, r) == Target(x.c, r) && DoneStatus(y.c, r) == DoneStatus(x.c, r)
  {
    var y := Next(x, r, timeout, skipReady, s);
    Unmoved(x, r, y.c.own, y.c.st);
  }

  lemma BlockedNearer(x: Cluster, r: Replies, timeout: Delay, skipReady: bool, s: Step)
    requires Frozen(x.c, r) && s.Reconcile? && (Opening(x.c) || x.c.st.hash != Some(Goal(x.c, r)))
    ensures var y := Next(x, r, timeout, skipReady, s); Frozen(y.c, r) && Nearer(x, y, r, s == FULL)
  {
    ReconcileFrozen(x, r, timeout, skipReady, s);
    PassEffect(x, r, timeout, skipReady);
  }

  lemma DeliverNearer(x: Cluster, r: Replies, timeout: Delay, skipReady: bool, s: Step)
    requires Frozen(x.c, r) && s.Reconcile? && !Opening(x.c) && x.c.st.hash == Some(Goal(x.c, r))
    ensures var y := Next(x, r, timeout, skipReady, s); Frozen(y.c, r) && Nearer(x, y, r, s == FULL)
  {
    ReconcileFrozen(x, r, timeout, skipReady, s);
    PassEffect(x, r, timeout, skipReady);
    PatchAhead(x.sts, Target(x.c, r));
  }

  lemma ReconcileKeeps(x: Cluster, r: Replies, timeout: Delay, skipReady: bool, s: Step)
    requires Frozen(x.c, r) && s.Reconcile?
    ensures var y := Next(x, r, timeout, skipReady, s);
      y.c == x.c.(own := y.c.own, st := y.c.st) && Frozen(y.c, r) && Nearer(x, y, r, s == FULL)
  {
    ReconcileFrozen(x, r, timeout, skipReady, s);
    if Opening(x.c) || x.c.st.hash != Some(Goal(x.c, r)) {
      BlockedNearer(x, r, timeout, skipReady, s);
    } else {
      DeliverNearer(x, r, timeout, skipReady, s);
    }
  }

  lemma NextKeeps(x: Cluster, r: Replies, timeout: Delay, skipReady: bool, s: Step)
    requires Frozen(x.c, r)
    ensures var y := Next(x, r, timeout, skipReady, s);
      && Frozen(y.c, r) && Measure(y, r) <= Measure(x, r)
      && (Measure(y, r) == Measure(x, r) ==> Waiting(y, r) == Waiting(x, r))
      && (s == FULL && !Waiting(x, r) && !Final(x, r) ==> Measure(y, r) < Measure(x, r))
      && (s == StsMove && Waiting(x, r) ==> Measure(y, r) < Measure(x, r))
      && (Final(x, r) ==> y == x)
  {
    if s.StsMove? {
      MoveKeeps(x, r, timeout, skipReady);
    } else {
      ReconcileKeeps(x, r, timeout, skipReady, s);
    }
  }

  /** Along any run the measure never grows. If it does not fall, then no full pass ran unless the
      cluster was waiting or final, and no StatefulSet move ran if it was waiting. */
  lemma {:induction false} StepsKeep(x: Cluster, r: Replies, timeout: Delay, skipReady: bool, ss: seq<Step>)
    requires Frozen(x.c, r)
    ensures var y := Steps(x, r, timeout, skipReady, ss);
      && Frozen(y.c, r) && Measure(y, r) <= Measure(x, r)
      && (Measure(y, r) == Measure(x, r) ==> (FULL in ss ==> Waiting(x, r) || Final(x, r)) && (StsMove in ss ==> !Waiting(x, r)))
      && (Final(x, r) ==> y == x)
    decreases |ss|
  {
    if ss != [] {
      NextKeeps(x, r, timeout, skipReady, ss[0]);
      StepsKeep(Next(x, r, timeout, skipReady, ss[0]), r, timeout, skipReady, ss[1..]);
    }
  }

  lemma {:induction false} StepsAppend(x: Cluster, r: Replies, timeout: Delay, skipReady: bool, ss: seq<Step>, ts: seq<Step>)
    ensures Steps(x, r, timeout, skipReady, ss + ts) ==
            Steps(Steps(x, r, timeout, skipReady, ss), r, timeout, skipReady, ts)
    decreases |ss|
  {
    if ss == [] {
      assert ss + ts == ts;
    } else {
      assert (ss + ts)[1..] == ss[1..] + ts;
      StepsAppend(Next(x, r, timeout, skipReady, ss[0]), r, timeout, skipReady, ss[1..], ts);
    }
  }

  function Flatten(parts: seq<seq<Step>>): seq<Step> {
    if parts == [] then [] else parts[0] + Flatten(parts[1..])
  }

  /** Both the controller and the StatefulSet controller have a turn, in any order and among any
      number of crashed passes. */
  predicate Turns(ss: seq<Step>) {
    FULL in ss && StsMove in ss
  }

  /** A stretch in which both sides have a turn makes progress. */
  lemma Stretch(x: Cluster, r: Replies, timeout: Delay, skipReady: bool, ss: seq<Step>)
    requires Frozen(x.c, r) && Turns(ss) && !Final(x, r)
    ensures var y := Steps(x, r, timeout, skipReady, ss); Frozen(y.c, r) && Measure(y, r) < Measure(x, r)
  {
    StepsKeep(x, r, timeout, skipReady, ss);
  }

  /** A fair schedule, one that falls into at least as many such stretches as the measure says, ends
      in the final cluster. */
  lemma {:induction false} Converges(x: Cluster, r: Replies, timeout: Delay, skipReady: bool, parts: seq<seq<Step>>)
    requires Frozen(x.c, r) && |parts| >= Measure(x, r)
    requires forall ss :: ss in parts ==> Turns(ss)
    ensures var y := Steps(x, r, timeout, skipReady, Flatten(parts)); Frozen(y.c, r) && Final(y, r)
    decreases |parts|
  {
    if Final(x, r) {
      StepsKeep(x, r, timeout, skipReady, Flatten(parts));
    } else {
      assert Turns(parts[0]);
      Stretch(x, r, timeout, skipReady, parts[0]);
      StepsAppend(x, r, timeout, skipReady, parts[0], Flatten(parts[1..]));
      Converges(Steps(x, r, timeout, skipReady, parts[0]), r, timeout, skipReady, parts[1..]);
    }
  }

  /** In the final cluster the CR is Ready, the StatefulSet carries the hash of the inputs, and no
      step of a pass, full or not, or of the StatefulSet controller writes anything. */
  lemma FinalIsReadyAndQuiet(x: Cluster, r: Replies, timeout: Delay, skipReady: bool, s: Step)
    requires Frozen(x.c, r) && Final(x, r)
    ensures Is(x.c.st.conds, Ready) && AllSubTrue(x.c.st.conds)
    ensures x.sts.value.work.configHash == Goal(x.c, r)
    ensures Next(x, r, timeout, skipReady, s) == x
    ensures !Pass(x.c, Answers(x, r), timeout, skipReady).sent.mem
  {
    NextKeeps(x, r, timeout, skipReady, s);
    PassEffect(x, r, timeout, skipReady);
    assert Listed(x.c.kind, Ready) && Ready in AllTrue(x.c.kind);
    assert !Opening(x.c);
  }

  // The early return on a changed hash

  predicate HashChanges(x: Cluster, r: Replies, timeout: Delay, skipReady: bool, s: Step) {
    s == FULL && Pass(x.c, Answers(x, r), timeout, skipReady).st.hash != x.c.st.hash
  }

  function HashExits(x: Cluster, r: Replies, timeout: Delay, skipReady: bool, ss: seq<Step>): nat
    decreases |ss|
  {
    if ss == [] then 0
    else (if HashChanges(x, r, timeout, skipReady, ss[0]) then 1 else 0)
         + HashExits(Next(x, r, timeout, skipReady, ss[0]), r, timeout, skipReady, ss[1..])
  }

  /** With stable inputs, full passes take the changed-hash exit at most once in a run, and never once
      the hash is on record. */
  lemma {:induction false} HashExitsOnce(x: Cluster, r: Replies, timeout: Delay, skipReady: bool, ss: seq<Step>)
    requires Frozen(x.c, r)
    ensures HashExits(x, r, timeout, skipReady, ss) <= if x.c.st.hash == Some(Goal(x.c, r)) then 0 else 1
    decreases |ss|
  {
    if ss != [] {
      var y := Next(x, r, timeout, skipReady, ss[0]);
      NextKeeps(x, r, timeout, skipReady, ss[0]);
      PassEffect(x, r, timeout, skipReady);
      Unmoved(x, r, y.c.own, y.c.st);
      HashExitsOnce(y, r, timeout, skipReady, ss[1..]);
    }
  }

  // New inputs

  /** After the inputs changed to r, two full passes of a registered child bring the new hash to the
      StatefulSet. */
  lemma NewHashReachesPods(x: Cluster, r: Replies, timeout: Delay, skipReady: bool)
    requires Frozen(x.c, r) && !Opening(x.c)
    ensures var y := Steps(x, r, timeout, skipReady, [FULL, FULL]);
      y.sts.Some? && y.sts.value.work == Target(x.c, r) && y.sts.value.work.configHash == Goal(x.c, r)
  {
    var y := Next(x, r, timeout, skipReady, FULL);
    PassEffect(x, r, timeout, skipReady);
    Unmoved(x, r, y.c.own, y.c.st);
    PassEffect(y, r, timeout, skipReady);
    assert Steps(x, r, timeout, skipReady, [FULL, FULL]) == Steps(y, r, timeout, skipReady, [FULL]);
    assert Steps(y, r, timeout, skipReady, [FULL]) == Next(y, r, timeout, skipReady, FULL);
  }
}
