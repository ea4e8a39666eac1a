/** Values shared by every module. */
module Wrappers {
  datatype Option<+T> = None | Some(value: T)

  datatype Result<+T, +E> = Ok(value: T) | Err(error: E)
}

/**
  The cluster that the upgrade job drives: storage nodes behind the REST API, and
  pods behind the Kubernetes API.

  The job never owns this state. Other parties may change it between any two calls,
  and any call may fail, with or without having taken effect. A run is therefore
  described by its log: one record for each call, holding the world in which the call
  was served and the world it left. What other parties did is the difference between
  the world one call left and the world the next one found.
 */
module Cluster {
  import opened Wrappers

  type NodeId = string
  type Label = string

  const CORE_CHART_NAME: string := "mayastor"

  /** The drain label that marks a node as drained for an upgrade. */
  const DRAIN_FOR_UPGRADE: Label := CORE_CHART_NAME + "-upgrade"

  /** The cordon label that is held while the frontends of a node are inspected. */
  const CORDON_ANA_CHECK: Label := CORE_CHART_NAME + "-upgrade-nvme-ana-check"

  lemma {:induction false} LabelNames()
    ensures DRAIN_FOR_UPGRADE == "mayastor-upgrade" && CORDON_ANA_CHECK == "mayastor-upgrade-nvme-ana-check"
    ensures DRAIN_FOR_UPGRADE != CORDON_ANA_CHECK
  {
    assert |DRAIN_FOR_UPGRADE| != |CORDON_ANA_CHECK|;
  }

  // ---------------------------------------------------------------- storage nodes

  datatype CordonDrain =
    | Open
    | Cordoned(cordon: set<Label>)
    | Draining(cordon: set<Label>, drain: set<Label>)
    | Drained(cordon: set<Label>, drain: set<Label>)
  {
    function CordonLabels(): set<Label> {
      if Open? then {} else cordon
    }

    function DrainLabels(): set<Label> {
      if Draining? || Drained? then drain else {}
    }

    predicate DrainedFor(l: Label) {
      Drained? && l in drain
    }

    predicate DrainingFor(l: Label) {
      Draining? && l in drain
    }

    predicate CordonedFor(l: Label) {
      Cordoned? && l in cordon
    }

    /** The REST server's answer to a drain request. */
    function AddDrain(l: Label): CordonDrain {
      match this
      case Open => Draining({}, {l})
      case Cordoned(c) => Draining(c, {l})
      case Draining(c, d) => Draining(c, d + {l})
      case Drained(c, d) => Drained(c, d + {l})
    }

    /** The REST server's answer to a cordon request. */
    function AddCordon(l: Label): CordonDrain {
      match this
      case Open => Cordoned({l})
      case Cordoned(c) => Cordoned(c + {l})
      case Draining(c, d) => Draining(c + {l}, d)
      case Drained(c, d) => Drained(c + {l}, d)
    }

    /** The REST server's answer to an uncordon request, which clears a label of either kind. */
    function Remove(l: Label): CordonDrain {
      var c, d := CordonLabels() - {l}, DrainLabels() - {l};
      if d == {} then (if c == {} then Open else Cordoned(c))
      else if Draining? then Draining(c, d)
      else Drained(c, d)
    }
  }

  /** A storage node as the REST API reports it; `spec` may be missing. */
  datatype StorageNode = StorageNode(spec: Option<CordonDrain>)

  // ---------------------------------------------------------------- volumes

  datatype VolumeStatus = Unknown | Online | Degraded | Faulted | Shutdown

  datatype Child = Child(rebuildProgress: Option<nat>)

  /** The nexus that currently serves a volume. */
  datatype Nexus = Nexus(node: NodeId, children: seq<Child>)

  /** The target a volume is meant to have, and the nodes that consume it. */
  datatype TargetSpec = TargetSpec(node: NodeId, frontendNodes: Option<seq<NodeId>>)

  datatype Volume = Volume(
    uuid: string,
    status: VolumeStatus,
    target: Option<Nexus>,
    replicaTopology: map<string, Option<NodeId>>,
    specTarget: Option<TargetSpec>)

  // ---------------------------------------------------------------- pods

  datatype App = IoEngine | AgentCore | ApiRest | Etcd | OtherApp(name: string)

  datatype Condition = Condition(kind: string, status: string)

  datatype PodSpec = PodSpec(nodeName: Option<NodeId>)

  datatype Pod = Pod(
    name: string,
    app: App,
    revisionHash: Option<string>,
    spec: Option<PodSpec>,
    conditions: Option<seq<Condition>>)

  /** The node a pod is bound to, if its record names one. */
  function NodeOf(p: Pod): Option<NodeId> {
    if p.spec.None? then None else p.spec.value.nodeName
  }

  /** The label and field selectors that the data-plane upgrade lists pods with. */
  datatype PodSelector =
    | OfApp(app: App)
    | Outdated(latest: string)
    | LatestOn(latest: string, node: NodeId)
  {
    /** `key!=value` also selects pods that lack the key. */
    predicate Selects(p: Pod) {
      match this
      case OfApp(a) => p.app == a
      case Outdated(h) => p.app == IoEngine && p.revisionHash != Some(h)
      case LatestOn(h, n) => p.app == IoEngine && p.revisionHash == Some(h) && NodeOf(p) == Some(n)
    }
  }

  function Select(ps: seq<Pod>, s: PodSelector): (r: seq<Pod>)
    ensures forall p :: p in r <==> p in ps && s.Selects(p)
  {
    if ps == [] then []
    else if s.Selects(ps[0]) then [ps[0]] + Select(ps[1..], s)
    else Select(ps[1..], s)
  }

  /** A selection goes through the pods in order, and takes each as often as it is there. */
  lemma {:induction false} SelectSplits(ps: seq<Pod>, qs: seq<Pod>, p: Pod, s: PodSelector)
    ensures Select(ps + qs, s) == Select(ps, s) + Select(qs, s)
    ensures Select([p], s) == if s.Selects(p) then [p] else []
    decreases |ps|
  {
    assert Select([], s) == [] && [p][1..] == [];
    if ps == [] {
      assert ps + qs == qs;
    } else {
      assert (ps + qs)[1..] == ps[1..] + qs;
      SelectSplits(ps[1..], qs, p, s);
    }
  }

  /** What the three selectors of the upgrade list. */
  lemma {:induction false} SelectedPods(ps: seq<Pod>, p: Pod, a: App, h: string, n: NodeId)
    ensures p in Select(ps, OfApp(a)) <==> p in ps && p.app == a
    ensures p in Select(ps, Outdated(h)) <==> p in ps && p.app == IoEngine && p.revisionHash != Some(h)
    ensures p in Select(ps, LatestOn(h, n)) <==>
            p in ps && p.app == IoEngine && p.revisionHash == Some(h) && p.spec.Some? && p.spec.value.nodeName == Some(n)
  {
  }

  function WithoutPod(ps: seq<Pod>, name: string): (r: seq<Pod>)
    ensures forall p :: p in r <==> p in ps && p.name != name
  {
    if ps == [] then []
    else if ps[0].name == name then WithoutPod(ps[1..], name)
    else [ps[0]] + WithoutPod(ps[1..], name)
  }

  // ---------------------------------------------------------------- worlds and calls

  datatype World = World(
    nodes: map<NodeId, StorageNode>,
    nodeListing: seq<NodeId>,
    volumes: seq<Volume>,
    pods: seq<Pod>,
    anaDisabled: seq<NodeId>)
  {
    predicate HasState(n: NodeId) {
      n in nodes && nodes[n].spec.Some?
    }

    function State(n: NodeId): CordonDrain
      requires HasState(n)
    {
      nodes[n].spec.value
    }

    function WithState(n: NodeId, s: CordonDrain): World {
      this.(nodes := nodes[n := StorageNode(Some(s))])
    }
  }

  datatype Request =
    | GetNodes
    | GetNode(node: NodeId)
    | PutDrain(node: NodeId, tag: Label)
    | PutCordon(node: NodeId, tag: Label)
    | DeleteCordon(node: NodeId, tag: Label)
    | GetVolumes
    | ListPods(selector: PodSelector)
    | ListAnaDisabled
    | DeletePod(name: string, node: NodeId)

  /** Whether the servers can serve `q` at all: unknown nodes and pods are refused. */
  predicate Servable(w: World, q: Request) {
    match q
    case GetNode(n) => n in w.nodes
    case PutDrain(n, _) => w.HasState(n)
    case PutCordon(n, _) => w.HasState(n)
    case DeleteCordon(n, _) => w.HasState(n)
    case DeletePod(name, _) => exists p :: p in w.pods && p.name == name
    case _ => true
  }

  /** The world after the servers applied `q`. */
  function Effect(w: World, q: Request): World
    requires Servable(w, q)
  {
    match q
    case PutDrain(n, l) => w.WithState(n, w.State(n).AddDrain(l))
    case PutCordon(n, l) => w.WithState(n, w.State(n).AddCordon(l))
    case DeleteCordon(n, l) => w.WithState(n, w.State(n).Remove(l))
    case DeletePod(name, _) => w.(pods := WithoutPod(w.pods, name))
    case _ => w
  }

  /** One call: the world it was served in, whether the caller saw it succeed, the world it left. */
  datatype Call = Call(before: World, request: Request, ok: bool, after: World)

  /** A call that the servers could have answered this way. */
  predicate Lawful(c: Call) {
    && (c.ok ==> Servable(c.before, c.request) && c.after == Effect(c.before, c.request))
    && (!c.ok ==> c.after == c.before
                  || (Servable(c.before, c.request) && c.after == Effect(c.before, c.request)))
  }

  /**
    What the environment does at a call: the world it presents, how the call fares, and how
    many entries it puts on each page of a listing.
   */
  datatype Tick = Tick(world: World, succeeds: bool, takesEffect: bool, paging: seq<nat>)

  /**
    A connection to the cluster during one run of the job. `script` fixes in advance what
    the environment will do; when it is used up the job is gone and every further call fails.
    Quantifying over all scripts covers every finite run, and every finite part of a longer one.
   */
  class Connection {
    var script: seq<Tick>
    var log: seq<Call>
    var paging: seq<nat>

    constructor (script: seq<Tick>)
      ensures this.script == script && log == []
    {
      this.script := script;
      this.log, this.paging := [], [];
    }

    /** Issues one call; `world` is what the call was served from. */
    method Invoke(q: Request) returns (ok: bool, world: World)
      modifies this
      ensures old(script) == [] ==> !ok && log == old(log) && script == []
      ensures old(script) != [] ==>
                && script == old(script)[1..]
                && |log| == |old(log)| + 1
                && log == old(log) + [log[|log| - 1]]
                && Lawful(log[|log| - 1])
                && log[|log| - 1].request == q
                && log[|log| - 1].ok == ok
                && log[|log| - 1].before == world == old(script)[0].world
      ensures ok ==> old(script) != [] && Servable(world, q)
    {
      if script == [] {
        return false, World(map[], [], [], [], []);
      }
      var tick := script[0];
      script, paging := script[1..], tick.paging;
      world := tick.world;
      var servable := Servable(world, q);
      ok := tick.succeeds && servable;
      var after := if servable && (ok || tick.takesEffect) then Effect(world, q) else world;
      log := log + [Call(world, q, ok, after)];
    }
  }
}
