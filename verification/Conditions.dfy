/** The condition table kept in every CR's status. Messages, reasons and timestamps are left out. */
module Conditions {
  import opened Base

  datatype Severity = Info | Warning | Error

  datatype State = True | Unknown | False(severity: Severity)

  datatype Type =
    | Ready
    | InputReady | MemcachedReady | TLSInputReady | ServiceConfigReady | DeploymentReady
    | CreateServiceReady | KeystoneEndpointReady
    | DBAccountReady | DBReady | TransportURLReady | KeystoneServiceReady
    | ServiceAccountReady | RoleReady | RoleBindingReady
    | DBSyncReady | CronJobReady | ExposeServiceReady
    | APIReady | EngineReady | ApplierReady

  /** The empty table stands for the nil list of a CR that no pass has touched. */
  type Table = map<Type, State>

  /** A condition missing from the table reads as Unknown. */
  function Get(c: Table, t: Type): State {
    if t in c then c[t] else Unknown
  }

  predicate Is(c: Table, t: Type) {
    t in c && c[t] == True
  }

  predicate AllSubTrue(c: Table) {
    forall t | t in c && t != Ready :: c[t] == True
  }

  function Seen(c: Table, skipReady: bool): set<Type> {
    set t | t in c && !(skipReady && t == Ready)
  }

  /** The worst state in the table. Whether the Ready entry itself takes part is the library's
      choice, so it is a parameter. */
  function Mirror(c: Table, skipReady: bool): Option<State> {
    var seen := Seen(c, skipReady);
    if seen == {} then None
    else if exists t :: t in seen && c[t] == False(Error) then Some(False(Error))
    else if exists t :: t in seen && c[t] == False(Warning) then Some(False(Warning))
    else if exists t :: t in seen && c[t] == False(Info) then Some(False(Info))
    else if exists t :: t in seen && c[t] == Unknown then Some(Unknown)
    else Some(True)
  }

  /** The mirror is True exactly when something is mirrored and all of it is True. */
  lemma MirrorTrue(c: Table, skipReady: bool)
    ensures Mirror(c, skipReady) == Some(True) <==>
            Seen(c, skipReady) != {} && forall t | t in Seen(c, skipReady) :: c[t] == True
  {
    if Mirror(c, skipReady) == Some(True) {
      forall t | t in Seen(c, skipReady) ensures c[t] == True {
        match c[t]
        case True =>
        case Unknown =>
        case False(s) => match s { case Info => case Warning => case Error => }
      }
    }
  }

  /** How bad a state is. */
  function Badness(s: State): nat {
    match s
    case True => 0
    case Unknown => 1
    case False(Info) => 2
    case False(Warning) => 3
    case False(Error) => 4
  }

  /** The mirrored state is one of the table's, and none of them is worse; there is one unless nothing is
      mirrored. */
  lemma MirrorIsWorst(c: Table, skipReady: bool, s: State)
    ensures Mirror(c, skipReady) == Some(s) <==>
      (exists t :: t in Seen(c, skipReady) && c[t] == s) && forall t | t in Seen(c, skipReady) :: Badness(c[t]) <= Badness(s)
    ensures Mirror(c, skipReady) == None <==> Seen(c, skipReady) == {}
  {
    forall t | t in Seen(c, skipReady)
      ensures c[t] in {True, Unknown, False(Info), False(Warning), False(Error)}
    {
      match c[t] { case True => case Unknown => case False(Info) => case False(Warning) => case False(Error) => }
    }
    if Seen(c, skipReady) != {} {
      var t :| t in Seen(c, skipReady);
      assert Mirror(c, skipReady).Some?;
    }
  }
}
