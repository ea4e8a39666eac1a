/**
  The verdict on running rebuilds (`rebuild_result`) as a function of the volume
  snapshots it reads, the loops that compute it, and what the verdict is worth.
 */
module Rebuild {
  import opened Wrappers
  import opened Cluster

  predicate Unhealthy(v: Volume) {
    v.status.Faulted? || v.status.Degraded?
  }

  /** The positions of the children that a volume's nexus is rebuilding. */
  function RebuildingChildren(v: Volume): set<nat> {
    if v.target.None? then {}
    else set i: nat | i < |v.target.value.children| && v.target.value.children[i].rebuildProgress.Some?
  }

  predicate IsRebuilding(v: Volume) {
    RebuildingChildren(v) != {}
  }

  /** Every node that serves or stores a part of a volume with a target. */
  function TouchedNodes(v: Volume): set<NodeId>
    requires v.target.Some?
  {
    {v.target.value.node} +
    (set id | id in v.replicaTopology && v.replicaTopology[id].Some? :: v.replicaTopology[id].value)
  }

  /** A volume touches the node of its target and the nodes of its replicas, and no other. */
  lemma {:induction false} TouchedNodesIff(v: Volume, n: NodeId)
    requires v.target.Some?
    ensures n in TouchedNodes(v) <==>
            n == v.target.value.node || exists id :: id in v.replicaTopology && v.replicaTopology[id] == Some(n)
  {
  }

  /** A volume rebuilds when some child of its nexus has a rebuild in progress. */
  lemma {:induction false} IsRebuildingIff(v: Volume)
    ensures IsRebuilding(v) <==> v.target.Some? && exists c :: c in v.target.value.children && c.rebuildProgress.Some?
  {
    if v.target.Some? {
      var cs := v.target.value.children;
      if c :| c in cs && c.rebuildProgress.Some? {
        var i: nat :| i < |cs| && cs[i] == c;
        assert i in RebuildingChildren(v);
      }
      if i: nat :| i in RebuildingChildren(v) {
        assert cs[i] in cs;
      }
    }
  }

  function UnhealthyExcept(vs: seq<Volume>, discarded: seq<Volume>): (r: seq<Volume>)
    ensures forall v :: v in r <==> v in vs && Unhealthy(v) && v !in discarded
  {
    if vs == [] then []
    else if Unhealthy(vs[0]) && vs[0] !in discarded then [vs[0]] + UnhealthyExcept(vs[1..], discarded)
    else UnhealthyExcept(vs[1..], discarded)
  }

  // ---------------------------------------------------------------- one pass

  datatype ScanResult =
    | FoundRebuild(stale: seq<Volume>)
    | Scanned(over: set<NodeId>, stale: seq<Volume>)

  /** One walk over the unhealthy volumes; `over` accumulates nodes across volumes. */
  function Scan(us: seq<Volume>, over: set<NodeId>, stale: seq<Volume>, node: NodeId): ScanResult {
    if us == [] then Scanned(over, stale)
    else if us[0].target.None? then Scan(us[1..], over, stale, node)
    else
      var over' := over + TouchedNodes(us[0]);
      if node !in over' then Scan(us[1..], over', stale, node)
      else if IsRebuilding(us[0]) then FoundRebuild(stale)
      else Scan(us[1..], over', stale + [us[0]], node)
  }

  /** What one turn of the loop in `rebuild_result` concludes from one snapshot. */
  datatype Pass =
    | Quiet(stale: seq<Volume>)
    | Busy(stale: seq<Volume>)
    | Unsettled(stale: seq<Volume>)

  function OnePass(snapshot: seq<Volume>, stale: seq<Volume>, node: NodeId): Pass {
    match Scan(UnhealthyExcept(snapshot, stale), {}, stale, node)
    case FoundRebuild(s) => Busy(s)
    case Scanned(over, s) => if over == {} then Quiet(s) else Unsettled(s)
  }

  // ---------------------------------------------------------------- the loops

  method ReplicaRebuildCount(v: Volume) returns (count: nat)
    ensures count == |RebuildingChildren(v)|
  {
    count := 0;
    if v.target.Some? {
      var children := v.target.value.children;
      ghost var seen: set<nat> := {};
      for i := 0 to |children|
        invariant seen == set k: nat | k < i && children[k].rebuildProgress.Some?
        invariant count == |seen|
      {
        if children[i].rebuildProgress.Some? {
          count := count + 1;
          seen := seen + {i};
        }
      }
      assert seen == RebuildingChildren(v);
    }
  }

  /** Waits for a rebuild to start. Each of the eleven looks re-reads the snapshot in hand. */
  method RebuildStarts(v: Volume) returns (started: bool)
    ensures started == IsRebuilding(v)
  {
    for i := 0 to 11
      invariant 0 < i ==> !IsRebuilding(v)
    {
      var count := ReplicaRebuildCount(v);
      if count > 0 {
        return true;
      }
    }
    return false;
  }

  /** The walk over the unhealthy volumes of one snapshot. */
  method ScanVolumes(us: seq<Volume>, stale: seq<Volume>, node: NodeId) returns (r: ScanResult)
    ensures r == Scan(us, {}, stale, node)
  {
    var over: set<NodeId>, discarded := {}, stale;
    for i := 0 to |us|
      invariant Scan(us[i..], over, discarded, node) == Scan(us, {}, stale, node)
    {
      var v := us[i];
      assert us[i..][1..] == us[i + 1..];
      if v.target.None? {
        continue;
      }
      over := over + TouchedNodes(v);
      if node in over {
        var count := ReplicaRebuildCount(v);
        var rebuilding := count != 0;
        if !rebuilding {
          rebuilding := RebuildStarts(v);
        }
        if rebuilding {
          return FoundRebuild(discarded);
        }
        discarded := discarded + [v];
      }
    }
    return Scanned(over, discarded);
  }

  // ---------------------------------------------------------------- soundness of a pass

  lemma {:induction false} ScanKeeps(us: seq<Volume>, over: set<NodeId>, stale: seq<Volume>, node: NodeId)
    ensures var r := Scan(us, over, stale, node);
            && stale <= r.stale
            && (forall v :: v in r.stale[|stale|..] ==> v in us && v.target.Some? && !IsRebuilding(v))
            && (r.FoundRebuild? ==> exists v :: v in us && IsRebuilding(v))
            && (r.Scanned? ==> over <= r.over)
            && (r.Scanned? && r.over == {} ==> r.stale == stale && forall v :: v in us ==> v.target.None?)
  {
    if us != [] {
      var r := Scan(us, over, stale, node);
      if us[0].target.None? {
        ScanKeeps(us[1..], over, stale, node);
      } else {
        var over' := over + TouchedNodes(us[0]);
        assert us[0].target.value.node in over';
        if node !in over' {
          ScanKeeps(us[1..], over', stale, node);
        } else if !IsRebuilding(us[0]) {
          ScanKeeps(us[1..], over', stale + [us[0]], node);
          assert r.stale[|stale|..] == [us[0]] + r.stale[|stale| + 1..];
        }
      }
    }
  }

  /**
    What a pass is worth. Only unhealthy volumes with a target and no rebuilding child are
    ever discarded; a quiet pass discards nothing, and every unhealthy volume it saw is
    discarded or has no target; a busy pass saw a rebuild.
   */
  lemma {:induction false} PassSound(snapshot: seq<Volume>, stale: seq<Volume>, node: NodeId)
    ensures var r := OnePass(snapshot, stale, node);
            && stale <= r.stale
            && (forall v :: v in r.stale[|stale|..] ==>
                  v in snapshot && Unhealthy(v) && v !in stale && v.target.Some? && !IsRebuilding(v))
            && (r.Quiet? ==> r.stale == stale)
            && (r.Quiet? ==> forall v :: v in snapshot && Unhealthy(v) ==> v in stale || v.target.None?)
            && (r.Busy? ==> exists v :: v in snapshot && Unhealthy(v) && v !in stale && IsRebuilding(v))
  {
    ScanKeeps(UnhealthyExcept(snapshot, stale), {}, stale, node);
  }

  // ---------------------------------------------------------------- a whole verdict

  /** `rebuild_result` over the snapshots it reads; `Unsettled` while it still loops. */
  function Rounds(snapshots: seq<seq<Volume>>, stale: seq<Volume>, node: NodeId): Pass {
    if snapshots == [] then Unsettled(stale)
    else
      var p := OnePass(snapshots[0], stale, node);
      if p.Unsettled? then Rounds(snapshots[1..], p.stale, node) else p
  }

  /** How many snapshots the verdict used. */
  function RoundsUsed(snapshots: seq<seq<Volume>>, stale: seq<Volume>, node: NodeId): (n: nat)
    ensures n <= |snapshots|
    ensures snapshots != [] ==> n > 0
  {
    if snapshots == [] then 0
    else
      var p := OnePass(snapshots[0], stale, node);
      1 + if p.Unsettled? then RoundsUsed(snapshots[1..], p.stale, node) else 0
  }

  /** The volumes of a discard list are stuck: unhealthy, and with nothing rebuilding. */
  predicate Stuck(stale: seq<Volume>) {
    forall v :: v in stale ==> Unhealthy(v) && !IsRebuilding(v)
  }

  lemma {:induction false} PassKeepsStuck(snapshot: seq<Volume>, stale: seq<Volume>, node: NodeId)
    requires Stuck(stale)
    ensures Stuck(OnePass(snapshot, stale, node).stale)
  {
    PassSound(snapshot, stale, node);
    var s := OnePass(snapshot, stale, node).stale;
    assert s == stale + s[|stale|..];
  }

  /** What was newly discarded comes from a snapshot that was read. */
  ghost predicate DiscardedWereRead(snapshots: seq<seq<Volume>>, n: nat, stale: seq<Volume>, now: seq<Volume>)
    requires n <= |snapshots|
  {
    stale <= now && forall v :: v in now[|stale|..] ==> exists i :: 0 <= i < n && v in snapshots[i]
  }

  lemma {:induction false} FurtherDiscards(all: seq<seq<Volume>>, rest: seq<seq<Volume>>, n: nat, stale: seq<Volume>, mid: seq<Volume>, now: seq<Volume>)
    requires all != [] && rest == all[1..] && n <= |rest| && stale <= mid && (forall v :: v in mid[|stale|..] ==> v in all[0])
    requires DiscardedWereRead(rest, n, mid, now)
    ensures DiscardedWereRead(all, n + 1, stale, now)
  {
    assert forall i :: 0 <= i < |rest| ==> rest[i] == all[i + 1];
    assert now[|stale|..] == mid[|stale|..] + now[|mid|..];
    forall v | v in now[|stale|..] ensures exists i :: 0 <= i < n + 1 && v in all[i] {
      if v in mid[|stale|..] {
        assert v in all[0];
      } else {
        var i :| 0 <= i < n && v in rest[i];
        assert v in all[i + 1];
      }
    }
  }

  lemma {:induction false} RoundsDiscardRead(snapshots: seq<seq<Volume>>, stale: seq<Volume>, node: NodeId)
    ensures DiscardedWereRead(snapshots, RoundsUsed(snapshots, stale, node), stale, Rounds(snapshots, stale, node).stale)
    decreases |snapshots|
  {
    if snapshots != [] {
      var p, rest := OnePass(snapshots[0], stale, node), snapshots[1..];
      PassSound(snapshots[0], stale, node);
      if p.Unsettled? {
        RoundsDiscardRead(rest, p.stale, node);
        FurtherDiscards(snapshots, rest, RoundsUsed(rest, p.stale, node), stale, p.stale, Rounds(rest, p.stale, node).stale);
      }
    }
  }

  /** The verdict, as seen in the last snapshot that was read. */
  ghost predicate VerdictHolds(last: seq<Volume>, r: Pass) {
    && (r.Quiet? ==> forall v :: v in last && Unhealthy(v) ==> !IsRebuilding(v) && (v.target.None? || v in r.stale))
    && (r.Busy? ==> exists v :: v in last && Unhealthy(v) && IsRebuilding(v))
  }

  lemma {:induction false} RoundsVerdict(snapshots: seq<seq<Volume>>, stale: seq<Volume>, node: NodeId)
    requires Stuck(stale)
    ensures var r, n := Rounds(snapshots, stale, node), RoundsUsed(snapshots, stale, node);
            Stuck(r.stale) && (!r.Unsettled? ==> n > 0 && VerdictHolds(snapshots[n - 1], r))
    decreases |snapshots|
  {
    if snapshots != [] {
      var p, rest := OnePass(snapshots[0], stale, node), snapshots[1..];
      PassSound(snapshots[0], stale, node);
      PassKeepsStuck(snapshots[0], stale, node);
      if p.Unsettled? {
        RoundsVerdict(rest, p.stale, node);
        assert forall i :: 0 <= i < |rest| ==> rest[i] == snapshots[i + 1];
      }
    }
  }

  /**
    The verdicts of `rebuild_result`. A "no rebuild" verdict means that no unhealthy volume
    of the last snapshot read has a rebuilding child, and that each of them either has no
    target or was discarded; whatever the call discarded was unhealthy and not rebuilding
    in one of the snapshots it read. A "rebuilding" verdict names a rebuild in the last one.
   */
  lemma {:induction false} VerdictSound(snapshots: seq<seq<Volume>>, stale: seq<Volume>, node: NodeId)
    requires Stuck(stale)
    ensures var r, n := Rounds(snapshots, stale, node), RoundsUsed(snapshots, stale, node);
            && Stuck(r.stale) && DiscardedWereRead(snapshots, n, stale, r.stale)
            && (!r.Unsettled? ==> n > 0 && VerdictHolds(snapshots[n - 1], r))
  {
    RoundsDiscardRead(snapshots, stale, node);
    RoundsVerdict(snapshots, stale, node);
  }

  // ---------------------------------------------------------------- steady snapshots

  /** The volumes of a snapshot that a pass has to settle: unhealthy, not discarded, with a target. */
  function Pending(vs: seq<Volume>, stale: seq<Volume>): (r: seq<Volume>)
    ensures forall v :: v in r <==> v in vs && Unhealthy(v) && v !in stale && v.target.Some?
  {
    if vs == [] then []
    else if Unhealthy(vs[0]) && vs[0] !in stale && vs[0].target.Some? then
      [vs[0]] + Pending(vs[1..], stale)
    else Pending(vs[1..], stale)
  }

  predicate Distinct(vs: seq<Volume>) {
    forall i, j :: 0 <= i < j < |vs| ==> vs[i] != vs[j]
  }

  /** The first of the targeted volumes `ts` that touches `node`, or their number. */
  function FirstTouch(ts: seq<Volume>, node: NodeId): (k: nat)
    requires forall v :: v in ts ==> v.target.Some?
    ensures k <= |ts|
    ensures forall i :: 0 <= i < k ==> node !in TouchedNodes(ts[i])
    ensures k < |ts| ==> node in TouchedNodes(ts[k])
  {
    if ts == [] then 0
    else if node in TouchedNodes(ts[0]) then 0
    else 1 + FirstTouch(ts[1..], node)
  }

  predicate AnyRebuilding(vs: seq<Volume>) {
    exists i :: 0 <= i < |vs| && IsRebuilding(vs[i])
  }

  lemma {:induction false} ScanSkipsUntargeted(vs: seq<Volume>, kept: seq<Volume>, over: set<NodeId>, stale: seq<Volume>, node: NodeId)
    ensures Scan(UnhealthyExcept(vs, kept), over, stale, node) == Scan(Pending(vs, kept), over, stale, node)
  {
    if vs != [] {
      var us, ts := UnhealthyExcept(vs, kept), Pending(vs, kept);
      if Unhealthy(vs[0]) && vs[0] !in kept {
        assert us[1..] == UnhealthyExcept(vs[1..], kept);
        if vs[0].target.None? {
          ScanSkipsUntargeted(vs[1..], kept, over, stale, node);
        } else {
          assert ts[1..] == Pending(vs[1..], kept);
          var over' := over + TouchedNodes(vs[0]);
          ScanSkipsUntargeted(vs[1..], kept, over', stale, node);
          ScanSkipsUntargeted(vs[1..], kept, over', stale + [vs[0]], node);
        }
      } else {
        ScanSkipsUntargeted(vs[1..], kept, over, stale, node);
      }
    }
  }

  /** A scan leaves volumes before the first one that touches the node, and discards all after. */
  lemma {:induction false} ScanShape(ts: seq<Volume>, over: set<NodeId>, stale: seq<Volume>, node: NodeId)
    requires forall v :: v in ts ==> v.target.Some?
    ensures var k := if node in over then 0 else FirstTouch(ts, node);
            var r := Scan(ts, over, stale, node);
            && (r.FoundRebuild? <==> AnyRebuilding(ts[k..]))
            && (r.Scanned? ==> r.stale == stale + ts[k..] && (r.over == {} <==> over == {} && ts == []))
  {
    if ts != [] {
      var k := if node in over then 0 else FirstTouch(ts, node);
      var over' := over + TouchedNodes(ts[0]);
      assert ts[0].target.value.node in over';
      if node !in over' {
        ScanShape(ts[1..], over', stale, node);
        assert ts[1..][k - 1..] == ts[k..];
      } else {
        assert ts[k..] == ts;
        if IsRebuilding(ts[0]) {
          assert AnyRebuilding(ts);
        } else {
          ScanShape(ts[1..], over', stale + [ts[0]], node);
          assert ts[1..][0..] == ts[1..];
          assert stale + [ts[0]] + ts[1..] == stale + ts;
          RebuildingTail(ts);
        }
      }
    }
  }

  lemma {:induction false} RebuildingTail(ts: seq<Volume>)
    requires ts != [] && !IsRebuilding(ts[0])
    ensures AnyRebuilding(ts) <==> AnyRebuilding(ts[1..])
  {
    if AnyRebuilding(ts) {
      var i :| 0 <= i < |ts| && IsRebuilding(ts[i]);
      assert IsRebuilding(ts[1..][i - 1]);
    }
    if AnyRebuilding(ts[1..]) {
      var i :| 0 <= i < |ts[1..]| && IsRebuilding(ts[1..][i]);
      assert IsRebuilding(ts[i + 1]);
    }
  }

  /** One pass over a snapshot, in terms of the volumes it has to settle. */
  lemma {:induction false} PassShape(vs: seq<Volume>, stale: seq<Volume>, node: NodeId)
    ensures var ts := Pending(vs, stale);
            var k := FirstTouch(ts, node);
            var r := OnePass(vs, stale, node);
            && (r.Busy? <==> AnyRebuilding(ts[k..]))
            && (r.Quiet? <==> ts == [])
            && (!r.Busy? ==> r.stale == stale + ts[k..])
  {
    ScanSkipsUntargeted(vs, stale, {}, stale, node);
    ScanShape(Pending(vs, stale), {}, stale, node);
  }

  function Except(ts: seq<Volume>, gone: seq<Volume>): seq<Volume> {
    if ts == [] then []
    else if ts[0] in gone then Except(ts[1..], gone)
    else [ts[0]] + Except(ts[1..], gone)
  }

  lemma {:induction false} PendingAfterDiscard(vs: seq<Volume>, stale: seq<Volume>, gone: seq<Volume>)
    ensures Pending(vs, stale + gone) == Except(Pending(vs, stale), gone)
  {
    if vs != [] {
      PendingAfterDiscard(vs[1..], stale, gone);
      if Unhealthy(vs[0]) && vs[0] !in stale && vs[0].target.Some? {
        assert Pending(vs, stale)[1..] == Pending(vs[1..], stale);
      }
    }
  }

  lemma {:induction false} ExceptSuffix(ts: seq<Volume>, k: nat)
    requires k <= |ts| && Distinct(ts)
    ensures Except(ts, ts[k..]) == ts[..k]
  {
    if k == 0 {
      ExceptAll(ts, ts);
      assert ts[0..] == ts;
    } else {
      assert ts[1..][k - 1..] == ts[k..];
      assert ts[0] !in ts[k..];
      ExceptSuffix(ts[1..], k - 1);
      assert ts[..k] == [ts[0]] + ts[1..][..k - 1];
    }
  }

  lemma {:induction false} ExceptAll(ts: seq<Volume>, gone: seq<Volume>)
    requires forall v :: v in ts ==> v in gone
    ensures Except(ts, gone) == []
  {
    if ts != [] {
      ExceptAll(ts[1..], gone);
    }
  }

  lemma {:induction false} PendingDistinct(vs: seq<Volume>, stale: seq<Volume>)
    requires Distinct(vs)
    ensures Distinct(Pending(vs, stale))
  {
    if vs != [] {
      assert vs[0] !in vs[1..];
      PendingDistinct(vs[1..], stale);
    }
  }

  /** The loop against a volume set that never changes. */
  function SteadyRounds(vs: seq<Volume>, stale: seq<Volume>, node: NodeId, n: nat): Pass
    decreases n
  {
    if n == 0 then Unsettled(stale)
    else
      var p := OnePass(vs, stale, node);
      if p.Unsettled? then SteadyRounds(vs, p.stale, node, n - 1) else p
  }

  lemma {:induction false} StuckForever(vs: seq<Volume>, stale: seq<Volume>, node: NodeId, n: nat)
    requires OnePass(vs, stale, node) == Unsettled(stale)
    ensures SteadyRounds(vs, stale, node, n).Unsettled?
  {
    if n > 0 {
      StuckForever(vs, stale, node, n - 1);
    }
  }

  /** After an inconclusive pass, the next one over the same volumes ends or changes nothing. */
  lemma {:induction false} SecondPass(vs: seq<Volume>, stale: seq<Volume>, node: NodeId)
    requires Distinct(vs) && OnePass(vs, stale, node).Unsettled?
    ensures var s := OnePass(vs, stale, node).stale;
            OnePass(vs, s, node) == if FirstTouch(Pending(vs, stale), node) == 0 then Quiet(s) else Unsettled(s)
  {
    var ts := Pending(vs, stale);
    var k := FirstTouch(ts, node);
    PassShape(vs, stale, node);
    var s := OnePass(vs, stale, node).stale;
    assert Pending(vs, s) == ts[..k] by {
      PendingAfterDiscard(vs, stale, ts[k..]);
      PendingDistinct(vs, stale);
      ExceptSuffix(ts, k);
    }
    PassShape(vs, s, node);
    assert FirstTouch(ts[..k], node) == k;
    assert ts[..k][k..] == [];
    assert s + [] == s;
  }

  /**
    When `rebuild_result` ends, for a volume set that does not change. Write `ts` for the
    unhealthy, undiscarded volumes with a target in listing order. It reports a rebuild
    exactly when one of `ts`, from the first one that touches the node onwards, is
    rebuilding; otherwise it reports none exactly when there are no such volumes or the very
    first of them touches the node; in every other case it loops for ever, however long it
    is given.
   */
  lemma {:induction false} SteadyVerdict(vs: seq<Volume>, stale: seq<Volume>, node: NodeId, n: nat)
    requires n >= 2 && Distinct(vs)
    ensures var ts := Pending(vs, stale);
            var busy := AnyRebuilding(ts[FirstTouch(ts, node)..]);
            var settles := ts == [] || node in TouchedNodes(ts[0]);
            var r := SteadyRounds(vs, stale, node, n);
            && (r.Busy? <==> busy)
            && (r.Quiet? <==> !busy && settles)
            && (r.Unsettled? <==> !busy && !settles)
  {
    PassShape(vs, stale, node);
    var p := OnePass(vs, stale, node);
    if p.Unsettled? {
      SecondPass(vs, stale, node);
      assert SteadyRounds(vs, stale, node, n) == SteadyRounds(vs, p.stale, node, n - 1);
      if OnePass(vs, p.stale, node).Unsettled? {
        StuckForever(vs, p.stale, node, n - 1);
      } else {
        assert SteadyRounds(vs, p.stale, node, n - 1) == OnePass(vs, p.stale, node);
      }
    } else {
      assert SteadyRounds(vs, stale, node, n) == p;
    }
  }
}
