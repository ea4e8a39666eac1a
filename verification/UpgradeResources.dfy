/**
  The objects that the plugin creates to run an upgrade, and deletes afterwards. Every call
  may fail, with or without having taken effect, and a command stops at its first failure.
 */
module UpgradeResources {
  import opened Wrappers

  datatype Kind = ServiceAccount | ClusterRole | ClusterRoleBinding | ConfigMap | UpgradeJob

  datatype Command = Create | Delete

  /** How a call to the API server fares. */
  datatype Fate = Succeeds | FailsUnapplied | FailsApplied

  const ALL_KINDS: set<Kind> := {ServiceAccount, ClusterRole, ClusterRoleBinding, ConfigMap, UpgradeJob}

  lemma {:induction false} AllKindsListed()
    ensures forall k: Kind :: k in ALL_KINDS
  {
    forall k: Kind ensures k in ALL_KINDS {
      match k {
        case ServiceAccount =>
        case ClusterRole =>
        case ClusterRoleBinding =>
        case ConfigMap =>
        case UpgradeJob =>
      }
    }
  }

  /** What an object needs is there: the job its binding, the binding its role, the role its account. */
  predicate DependenciesMet(objects: set<Kind>) {
    && (UpgradeJob in objects ==> ClusterRoleBinding in objects)
    && (ClusterRoleBinding in objects ==> ClusterRole in objects)
    && (ClusterRole in objects ==> ServiceAccount in objects)
  }

  /** The cluster as the plugin sees it; `history` keeps what it held after each call. */
  class ApiServer {
    var objects: set<Kind>
    var fates: seq<Fate>
    var history: seq<set<Kind>>

    constructor (fates: seq<Fate>)
      ensures objects == {} && this.fates == fates && history == []
    {
      objects, history := {}, [];
      this.fates := fates;
    }

    /** One call that would turn `objects` into `wanted`; it fails once `fates` is used up. */
    method Call(wanted: set<Kind>) returns (ok: bool)
      modifies this
      ensures objects == old(objects) || objects == wanted
      ensures ok ==> objects == wanted
      ensures history == old(history) + [objects]
    {
      var fate := if fates == [] then FailsUnapplied else fates[0];
      fates := if fates == [] then [] else fates[1..];
      if !fate.FailsUnapplied? {
        objects := wanted;
      }
      history := history + [objects];
      return fate.Succeeds?;
    }
  }

  /** Everything that was ever there since `from` had its dependencies met. */
  ghost predicate OrderedSince(s: ApiServer, from: nat)
    reads s
  {
    && DependenciesMet(s.objects)
    && from <= |s.history|
    && forall k :: from <= k < |s.history| ==> DependenciesMet(s.history[k])
  }

  /** What must be there before `k` is created. */
  function Needs(k: Kind): set<Kind> {
    match k
    case ServiceAccount => {}
    case ClusterRole => {ServiceAccount}
    case ClusterRoleBinding => {ServiceAccount, ClusterRole}
    case ConfigMap => {}
    case UpgradeJob => {ServiceAccount, ClusterRole, ClusterRoleBinding}
  }

  /** What must be gone before `k` is deleted. */
  function NeededBy(k: Kind): set<Kind> {
    match k
    case ServiceAccount => {ClusterRole, ClusterRoleBinding, UpgradeJob}
    case ClusterRole => {ClusterRoleBinding, UpgradeJob}
    case ClusterRoleBinding => {UpgradeJob}
    case ConfigMap => {}
    case UpgradeJob => {}
  }

  /** Creates or deletes one object, unless it is there, or gone, already. */
  method ObjectAction(s: ApiServer, k: Kind, command: Command, ghost from: nat) returns (ok: bool)
    requires OrderedSince(s, from)
    requires command.Create? ==> Needs(k) <= s.objects
    requires command.Delete? ==> NeededBy(k) !! s.objects
    modifies s
    ensures OrderedSince(s, from)
    ensures s.objects == old(s.objects) || s.objects == if command.Create? then old(s.objects) + {k} else old(s.objects) - {k}
    ensures ok ==> s.objects == if command.Create? then old(s.objects) + {k} else old(s.objects) - {k}
  {
    ok := s.Call(s.objects);
    if !ok { return; }
    match command {
      case Create =>
        if k !in s.objects { ok := s.Call(s.objects + {k}); }
      case Delete =>
        if k in s.objects { ok := s.Call(s.objects - {k}); }
    }
  }

  /** The config map is deleted and created anew if it is there; `dataOk` tells whether its files could be read. */
  method ConfigMapAction(s: ApiServer, command: Command, dataOk: bool, ghost from: nat) returns (ok: bool)
    requires OrderedSince(s, from)
    modifies s
    ensures OrderedSince(s, from) && s.objects - {ConfigMap} == old(s.objects) - {ConfigMap}
    ensures ok && command.Create? ==> s.objects == old(s.objects) + {ConfigMap}
    ensures ok && command.Delete? ==> s.objects == old(s.objects) - {ConfigMap}
  {
    if !dataOk { return false; }
    ok := s.Call(s.objects);
    if !ok { return; }
    if ConfigMap in s.objects {
      ok := s.Call(s.objects - {ConfigMap});
      if !ok { return; }
    }
    if command.Create? {
      ok := s.Call(s.objects + {ConfigMap});
    }
  }

  method CreateUpgradeResources(s: ApiServer, dataOk: bool, argsOk: bool, ghost from: nat) returns (ok: bool)
    requires OrderedSince(s, from)
    modifies s
    ensures OrderedSince(s, from)
    ensures ok ==> s.objects == ALL_KINDS
  {
    ok := ObjectAction(s, ServiceAccount, Create, from);
    if !ok { return; }
    ok := ObjectAction(s, ClusterRole, Create, from);
    if !ok { return; }
    ok := ObjectAction(s, ClusterRoleBinding, Create, from);
    if !ok { return; }
    ok := ConfigMapAction(s, Create, dataOk, from);
    if !ok { return; }
    // The image of the job and its arguments are worked out first.
    if !argsOk && UpgradeJob !in s.objects { return false; }
    ok := ObjectAction(s, UpgradeJob, Create, from);
    AllKindsListed();
  }

  method DeleteUpgradeResources(s: ApiServer, ghost from: nat) returns (ok: bool)
    requires OrderedSince(s, from)
    modifies s
    ensures OrderedSince(s, from)
    ensures ok ==> s.objects == {}
  {
    ok := ObjectAction(s, UpgradeJob, Delete, from);
    if !ok { return; }
    ok := ConfigMapAction(s, Delete, true, from);
    if !ok { return; }
    ok := ObjectAction(s, ClusterRoleBinding, Delete, from);
    if !ok { return; }
    ok := ObjectAction(s, ClusterRole, Delete, from);
    if !ok { return; }
    ok := ObjectAction(s, ServiceAccount, Delete, from);
    AllKindsListed();
    assert ok ==> s.objects == old(s.objects) - ALL_KINDS;
    assert old(s.objects) <= ALL_KINDS;
  }

  /** A command of the plugin, and whether its files and arguments are in order. */
  datatype Invocation = Invocation(command: Command, dataOk: bool, argsOk: bool)

  /**
    From an empty cluster, over any sequence of create and delete commands, each of them
    aborted anywhere: at every moment every object has what it depends on. A command that
    completes leaves all five objects, or none.
   */
  method RunCommands(invocations: seq<Invocation>, fates: seq<Fate>)
    returns (history: seq<set<Kind>>, completed: seq<bool>, left: seq<set<Kind>>)
    ensures forall k :: 0 <= k < |history| ==> DependenciesMet(history[k])
    ensures |completed| == |left| == |invocations|
    ensures forall k :: 0 <= k < |invocations| && completed[k] ==>
              left[k] == if invocations[k].command.Create? then ALL_KINDS else {}
    ensures forall k :: 0 <= k < |left| ==> DependenciesMet(left[k])
  {
    var s := new ApiServer(fates);
    completed, left := [], [];
    for i := 0 to |invocations|
      invariant fresh(s) && OrderedSince(s, 0)
      invariant |completed| == |left| == i
      invariant forall k :: 0 <= k < i && completed[k] ==>
                  left[k] == if invocations[k].command.Create? then ALL_KINDS else {}
      invariant forall k :: 0 <= k < i ==> DependenciesMet(left[k])
    {
      var ok;
      match invocations[i].command {
        case Create => ok := CreateUpgradeResources(s, invocations[i].dataOk, invocations[i].argsOk, 0);
        case Delete => ok := DeleteUpgradeResources(s, 0);
      }
      completed, left := completed + [ok], left + [s.objects];
    }
    history := s.history;
  }
}
