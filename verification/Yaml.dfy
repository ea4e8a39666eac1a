/**
  Values files: a YAML tree, paths into it, the deep merge of two files, and the in-place
  edits that the migration issues through yq.
 */
module Yaml {
  import opened Wrappers

  /** Field names. Those that the migration mentions are constructors of their own. */
  datatype Key =
    | IoEngine | LogLevel | Image | RepoTags | ControlPlane | DataPlane | Extensions | Eventing | Enabled
    | LokiStack | Promtail | Config | Snippets | ScrapeConfigs | Csi | Node | Nvme | IoTimeout
    | LocalpvProvisioner | Release | Version | Localpv | Tag | HelperPod | Loki | Filebeat | ImageTag | Logstash
    | Grafana | DownloadDashboardsImage | Sidecar | Prometheus | Alertmanager | NodeExporter | Pushgateway | Server
    | Ingester | Lifecycler | Ring | Kvstore | ExtraClientConfigs | InitContainer | Clients | LokiAddress | File
    | ReadinessProbe | HttpGet | HttpPath | Base | Logging | SilenceLevel | LogSilenceLevel | PluginMountPath
    | PluginMounthPath | JaegerOperator | ProvisionerTag | AttacherTag | SnapshotterTag | SnapshotControllerTag
    | RegistrarTag | ResizerTag | Crds | VolumeSnapshots | Jaeger | Url
    | Other(name: string)

  datatype Yaml =
    | Null
    | Bool(b: bool)
    | Int(i: int)
    | Str(s: string)
    | Arr(items: seq<Yaml>)
    | Map(fields: map<Key, Yaml>)

  datatype Path = Here | Under(key: Key, rest: Path)

  function Get(y: Yaml, p: Path): Option<Yaml> {
    match p
    case Here => Some(y)
    case Under(k, r) => if y.Map? && k in y.fields then Get(y.fields[k], r) else None
  }

  // ---------------------------------------------------------------- merging

  /** The merge of two files: maps are merged field by field, anything else is taken from `high`. */
  function Merge(low: Yaml, high: Yaml): Yaml
    decreases high
  {
    if low.Map? && high.Map? then
      Map(map k | k in low.fields.Keys + high.fields.Keys ::
            if k !in high.fields then low.fields[k]
            else if k !in low.fields then high.fields[k]
            else Merge(low.fields[k], high.fields[k]))
    else high
  }

  /** `y` says nothing at `p`: it runs out of fields before anything stops the path. */
  predicate Silent(y: Yaml, p: Path) {
    p.Under? && y.Map? && (p.key !in y.fields || Silent(y.fields[p.key], p.rest))
  }

  /**
    The merged value at any path: a scalar or array of the high-priority file wins whole,
    two maps are merged, the low-priority value stands where the other file is silent, and a
    path that the high-priority file cuts short with a scalar or array leads nowhere.
   */
  lemma {:induction false} MergeLookup(low: Yaml, high: Yaml, p: Path)
    ensures Get(Merge(low, high), p) ==
            match Get(high, p)
            case Some(v) =>
              if v.Map? && Get(low, p).Some? && Get(low, p).value.Map? then Some(Merge(Get(low, p).value, v))
              else Some(v)
            case None => if Silent(high, p) then Get(low, p) else None
    decreases p
  {
    if p.Under? && low.Map? && high.Map? && p.key in high.fields && p.key in low.fields {
      MergeLookup(low.fields[p.key], high.fields[p.key], p.rest);
    }
  }

  lemma {:induction false} MergeIdempotent(y: Yaml)
    ensures Merge(y, y) == y
  {
    if y.Map? {
      forall k | k in y.fields ensures Merge(y.fields[k], y.fields[k]) == y.fields[k] {
        MergeIdempotent(y.fields[k]);
      }
    }
  }

  /** Every field path of `low` is also there in `high`, so that merging adds nothing. */
  predicate AddsNothing(low: Yaml, high: Yaml)
    decreases high
  {
    low.Map? && high.Map? ==>
      forall k :: k in low.fields ==> k in high.fields && AddsNothing(low.fields[k], high.fields[k])
  }

  lemma {:induction false} MergeAddsNothing(low: Yaml, high: Yaml)
    ensures Merge(low, high) == high <==> AddsNothing(low, high)
    decreases high
  {
    if low.Map? && high.Map? {
      var m := Merge(low, high).fields;
      forall k | k in low.fields && k in high.fields
        ensures m[k] == high.fields[k] <==> AddsNothing(low.fields[k], high.fields[k])
      {
        MergeAddsNothing(low.fields[k], high.fields[k]);
      }
      if AddsNothing(low, high) {
        assert m.Keys == high.fields.Keys;
        assert forall k :: k in m ==> m[k] == high.fields[k];
      }
      if m == high.fields {
        forall k | k in low.fields ensures k in high.fields && AddsNothing(low.fields[k], high.fields[k]) {
          assert k in m;
        }
      }
    }
  }

  /** Where three files agree on what is a map, or the middle one hides nothing that matters. */
  predicate GroupsFreely(a: Yaml, b: Yaml, c: Yaml)
    decreases c
  {
    a.Map? && c.Map? ==>
      if b.Map? then
        forall k :: k in a.fields && k in b.fields && k in c.fields ==> GroupsFreely(a.fields[k], b.fields[k], c.fields[k])
      else AddsNothing(a, c)
  }

  /**
    Merging three files is associative exactly when nowhere a scalar or array of the middle
    file stands between two maps of which the first has a field that the last lacks.
   */
  lemma {:induction false} MergeAssociativeIff(a: Yaml, b: Yaml, c: Yaml)
    ensures Merge(Merge(a, b), c) == Merge(a, Merge(b, c)) <==> GroupsFreely(a, b, c)
    decreases c
  {
    if a.Map? && c.Map? {
      if b.Map? {
        var l, r := Merge(Merge(a, b), c).fields, Merge(a, Merge(b, c)).fields;
        assert l.Keys == r.Keys;
        forall k | k in l
          ensures l[k] == r[k] <==>
                  (k in a.fields && k in b.fields && k in c.fields ==> GroupsFreely(a.fields[k], b.fields[k], c.fields[k]))
        {
          if k in a.fields && k in b.fields && k in c.fields {
            MergeAssociativeIff(a.fields[k], b.fields[k], c.fields[k]);
          }
        }
        if l == r {
          forall k | k in a.fields && k in b.fields && k in c.fields
            ensures GroupsFreely(a.fields[k], b.fields[k], c.fields[k])
          {
            assert k in l && l[k] == r[k];
          }
        }
        if GroupsFreely(a, b, c) {
          assert l == r;
        }
      } else {
        MergeAddsNothing(a, c);
      }
    }
  }

  /** A null in the middle file, in place of a map of the other two, makes the grouping matter. */
  lemma {:induction false} MergeNotAssociative()
    ensures var a, b, c := Map(map[Image := Map(map[Tag := Str("x")])]), Map(map[Image := Null]), Map(map[Image := Map(map[])]);
            Merge(Merge(a, b), c) != Merge(a, Merge(b, c))
  {
    var a, b, c := Map(map[Image := Map(map[Tag := Str("x")])]), Map(map[Image := Null]), Map(map[Image := Map(map[])]);
    assert Tag in a.fields[Image].fields && !AddsNothing(a.fields[Image], c.fields[Image]);
    assert Image in a.fields && !GroupsFreely(a.fields[Image], b.fields[Image], c.fields[Image]);
    MergeAssociativeIff(a, b, c);
  }

  // ---------------------------------------------------------------- edits

  /** One yq command that edits a values file in place. */
  datatype Edit =
    | Assign(path: Path, value: Yaml)
    | Remove(path: Path)
    | AppendItem(path: Path, value: Yaml)
    | AddFields(path: Path, value: Yaml)
    | AddFieldsToFirst(path: Path, value: Yaml)

  datatype YqError = YqCommandFailed

  type Edited = Result<Yaml, YqError>

  /** `prior + extra` on objects: fields of `extra` replace those of `prior`. */
  function Plus(prior: Yaml, extra: Yaml): Edited {
    if prior.Null? then Ok(extra)
    else if prior.Map? && extra.Map? then Ok(Map(prior.fields + extra.fields))
    else Err(YqCommandFailed)
  }

  /** An overlay holds every field of either object, and where both have a field that of the second; it fails for anything else. */
  lemma {:induction false} OverlayHolds(prior: Yaml, extra: Yaml)
    ensures Plus(prior, extra).Ok? <==> prior.Null? || (prior.Map? && extra.Map?)
    ensures prior.Null? ==> Plus(prior, extra) == Ok(extra)
    ensures prior.Map? && extra.Map? ==>
              && Plus(prior, extra).value.Map?
              && var m := Plus(prior, extra).value.fields;
                 && m.Keys == prior.fields.Keys + extra.fields.Keys
                 && (forall k :: k in extra.fields ==> m[k] == extra.fields[k])
                 && (forall k :: k in prior.fields && k !in extra.fields ==> m[k] == prior.fields[k])
  {
  }

  /** What an edit makes of the value at its path, `Null` when there is none. */
  function Change(e: Edit, prior: Yaml): Edited
    requires !e.Remove?
  {
    match e
    case Assign(_, v) => Ok(v)
    case AppendItem(_, v) =>
      if prior.Null? then Ok(Arr([v]))
      else if prior.Arr? then Ok(Arr(prior.items + [v]))
      else Err(YqCommandFailed)
    case AddFields(_, v) => Plus(prior, v)
    case AddFieldsToFirst(_, v) =>
      if prior.Null? || (prior.Arr? && prior.items == []) then Ok(Arr([v]))
      else if prior.Arr? then
        var first := Plus(prior.items[0], v);
        if first.Ok? then Ok(Arr(prior.items[0 := first.value])) else Err(YqCommandFailed)
      else Err(YqCommandFailed)
  }

  /** A missing entry and a null one are both treated as an empty map on the way down. */
  function FieldsOf(y: Yaml): map<Key, Yaml> {
    if y.Map? then y.fields else map[]
  }

  function ChildOf(y: Yaml, k: Key): Yaml {
    if k in FieldsOf(y) then FieldsOf(y)[k] else Null
  }

  function ChangeAt(e: Edit, y: Yaml, p: Path): Edited
    requires !e.Remove?
    decreases p, y
  {
    match p
    case Here => Change(e, y)
    case Under(k, r) =>
      if !y.Map? && !y.Null? then Err(YqCommandFailed)
      else
        var child := ChangeAt(e, ChildOf(y, k), r);
        if child.Ok? then Ok(Map(FieldsOf(y)[k := child.value])) else child
  }

  function Without(y: Yaml, p: Path): Yaml
    decreases p, y
  {
    match p
    case Here => y
    case Under(k, r) =>
      if !y.Map? || k !in y.fields then y
      else if r.Here? then Map(y.fields - {k})
      else Map(y.fields[k := Without(y.fields[k], r)])
  }

  function Apply(e: Edit, y: Yaml): Edited {
    if e.Remove? then Ok(Without(y, e.path)) else ChangeAt(e, y, e.path)
  }

  function ApplyAll(es: seq<Edit>, y: Yaml): Edited
    decreases |es|, y
  {
    if es == [] then Ok(y)
    else
      var next := Apply(es[0], y);
      if next.Ok? then ApplyAll(es[1..], next.value) else next
  }

  // ---------------------------------------------------------------- laws of edits

  /** Neither path leads through the other. */
  predicate Diverge(p: Path, q: Path) {
    p.Under? && q.Under? && (p.key != q.key || Diverge(p.rest, q.rest))
  }

  /** No edit of `es` is on the way to `p`, or beyond it. */
  predicate Spares(es: seq<Edit>, p: Path) {
    forall i :: 0 <= i < |es| ==> Diverge(es[i].path, p)
  }

  /** The value an edit finds at its path. */
  function Found(y: Yaml, p: Path): Yaml {
    if Get(y, p).Some? then Get(y, p).value else Null
  }

  /** All that lies on the way to `p` is a map, null or missing. */
  predicate Open(y: Yaml, p: Path)
    decreases p, y
  {
    p.Under? ==> (y.Map? || y.Null?) && Open(ChildOf(y, p.key), p.rest)
  }

  lemma {:induction false} ChangeLands(e: Edit, y: Yaml, p: Path)
    requires !e.Remove?
    ensures ChangeAt(e, y, p).Ok? <==> Open(y, p) && Change(e, Found(y, p)).Ok?
    ensures ChangeAt(e, y, p).Ok? ==> Get(ChangeAt(e, y, p).value, p) == Some(Change(e, Found(y, p)).value)
    decreases p
  {
    if p.Under? && (y.Map? || y.Null?) {
      ChangeLands(e, ChildOf(y, p.key), p.rest);
      if p.key !in FieldsOf(y) {
        NothingUnderNull(p.rest);
      }
    }
  }

  lemma {:induction false} NothingUnderNull(p: Path)
    ensures Found(Null, p) == Null && Open(Null, p)
  {
    if p.Under? {
      NothingUnderNull(p.rest);
    }
  }

  lemma {:induction false} ChangeSpares(e: Edit, y: Yaml, p: Path, q: Path)
    requires !e.Remove? && Diverge(p, q) && ChangeAt(e, y, p).Ok?
    ensures Get(ChangeAt(e, y, p).value, q) == Get(y, q)
    decreases p
  {
    if p.key == q.key {
      ChangeSpares(e, ChildOf(y, p.key), p.rest, q.rest);
      assert Get(Null, q.rest) == None;
    }
  }

  lemma {:induction false} RemovalSpares(y: Yaml, p: Path, q: Path)
    requires Diverge(p, q)
    ensures Get(Without(y, p), q) == Get(y, q)
    decreases p
  {
    if y.Map? && p.key in y.fields && p.key == q.key {
      RemovalSpares(y.fields[p.key], p.rest, q.rest);
    }
  }

  lemma {:induction false} RemovalErases(y: Yaml, p: Path)
    requires p.Under?
    ensures Get(Without(y, p), p) == None
    decreases p
  {
    if y.Map? && p.key in y.fields && p.rest.Under? {
      RemovalErases(y.fields[p.key], p.rest);
    }
  }

  lemma {:induction false} EditSpares(e: Edit, y: Yaml, q: Path)
    requires Diverge(e.path, q) && Apply(e, y).Ok?
    ensures Get(Apply(e, y).value, q) == Get(y, q)
  {
    if e.Remove? {
      RemovalSpares(y, e.path, q);
    } else {
      ChangeSpares(e, y, e.path, q);
    }
  }

  lemma {:induction false} EditsSpare(es: seq<Edit>, y: Yaml, q: Path)
    requires Spares(es, q) && ApplyAll(es, y).Ok?
    ensures Get(ApplyAll(es, y).value, q) == Get(y, q)
    decreases |es|
  {
    if es != [] {
      EditSpares(es[0], y, q);
      EditsSpare(es[1..], Apply(es[0], y).value, q);
    }
  }

  lemma {:induction false} EditsSplit(a: seq<Edit>, b: seq<Edit>, y: Yaml)
    ensures ApplyAll(a + b, y) == if ApplyAll(a, y).Ok? then ApplyAll(b, ApplyAll(a, y).value) else ApplyAll(a, y)
    decreases |a|
  {
    if a == [] {
      assert a + b == b;
    } else {
      assert (a + b)[1..] == a[1..] + b;
      if Apply(a[0], y).Ok? {
        EditsSplit(a[1..], b, Apply(a[0], y).value);
      }
    }
  }

  /** The last edit at a path decides what stays there, if the edits after it spare the path. */
  lemma {:induction false} LastEditDecides(before: seq<Edit>, e: Edit, after: seq<Edit>, y: Yaml)
    requires e.path.Under? && Spares(after, e.path) && ApplyAll(before + [e] + after, y).Ok?
    ensures ApplyAll(before, y).Ok?
    ensures var r := ApplyAll(before + [e] + after, y).value;
            if e.Remove? then Get(r, e.path) == None
            else Change(e, Found(ApplyAll(before, y).value, e.path)).Ok?
                 && Get(r, e.path) == Some(Change(e, Found(ApplyAll(before, y).value, e.path)).value)
  {
    EditsSplit(before + [e], after, y);
    EditsSplit(before, [e], y);
    var mid := ApplyAll(before, y).value;
    assert ApplyAll([e], mid) == Apply(e, mid);
    EditsSpare(after, Apply(e, mid).value, e.path);
    if e.Remove? {
      RemovalErases(mid, e.path);
    } else {
      ChangeLands(e, mid, e.path);
    }
  }

  /** The four commands, in terms of the value at their path before and after. */
  lemma {:induction false} CommandsLand(y: Yaml, p: Path, value: Yaml)
    requires p.Under? && Open(y, p)
    ensures var r := Apply(Assign(p, value), y); r.Ok? && Get(r.value, p) == Some(value)
    ensures Get(Without(y, p), p) == None
    ensures Get(y, p) == None || Get(y, p) == Some(Null) ==>
              var r := Apply(AppendItem(p, value), y); r.Ok? && Get(r.value, p) == Some(Arr([value]))
    ensures Get(y, p).Some? && Get(y, p).value.Arr? ==>
              var r := Apply(AppendItem(p, value), y);
              && r.Ok? && Get(r.value, p).Some? && Get(r.value, p).value.Arr?
              && var before, now := Get(y, p).value.items, Get(r.value, p).value.items;
                 |now| == |before| + 1 && now[..|before|] == before && now[|before|] == value
    ensures Get(y, p).Some? && Get(y, p).value.Map? && value.Map? ==>
              var r := Apply(AddFields(p, value), y); r.Ok? && Get(r.value, p) == Some(Plus(Get(y, p).value, value).value)
  {
    ChangeLands(Assign(p, value), y, p);
    ChangeLands(AppendItem(p, value), y, p);
    ChangeLands(AddFields(p, value), y, p);
    RemovalErases(y, p);
  }

  /** Carries on with the edits `es`, unless something failed before. */
  function Continue(r: Edited, es: seq<Edit>): Edited {
    if r.Ok? then ApplyAll(es, r.value) else r
  }

  lemma {:induction false} ContinueSpares(r: Edited, es: seq<Edit>, q: Path)
    requires Spares(es, q) && Continue(r, es).Ok?
    ensures r.Ok? && Get(Continue(r, es).value, q) == Get(r.value, q)
  {
    EditsSpare(es, r.value, q);
  }

  /** The edit at position `k` of `es` decides what its path holds afterwards. */
  lemma {:induction false} EditStays(r: Edited, es: seq<Edit>, k: nat)
    requires k < |es| && Continue(r, es).Ok? && es[k].path.Under? && Spares(es[k + 1..], es[k].path)
    ensures es[k].Assign? ==> Get(Continue(r, es).value, es[k].path) == Some(es[k].value)
    ensures es[k].Remove? ==> Get(Continue(r, es).value, es[k].path) == None
  {
    assert es == es[..k] + [es[k]] + es[k + 1..];
    LastEditDecides(es[..k], es[k], es[k + 1..], r.value);
  }

  /** The first `n` of several blocks of edits. */
  function RunBlocks(r: Edited, blocks: seq<seq<Edit>>, n: nat): Edited
    requires n <= |blocks|
    decreases n, r
  {
    if n == 0 then r else Continue(RunBlocks(r, blocks, n - 1), blocks[n - 1])
  }

  /** Blocks from `m` to `n` that spare `q` do not change what it holds. */
  lemma {:induction false} BlocksKeep(r: Edited, blocks: seq<seq<Edit>>, m: nat, n: nat, q: Path)
    requires m <= n <= |blocks| && RunBlocks(r, blocks, n).Ok?
    requires forall g :: m <= g < n ==> Spares(blocks[g], q)
    ensures RunBlocks(r, blocks, m).Ok? && Get(RunBlocks(r, blocks, n).value, q) == Get(RunBlocks(r, blocks, m).value, q)
    decreases n
  {
    if m < n {
      ContinueSpares(RunBlocks(r, blocks, n - 1), blocks[n - 1], q);
      BlocksKeep(r, blocks, m, n - 1, q);
    }
  }

  lemma {:induction false} AllBlocksKeep(r: Edited, blocks: seq<seq<Edit>>, q: Path)
    requires RunBlocks(r, blocks, |blocks|).Ok? && forall g :: 0 <= g < |blocks| ==> Spares(blocks[g], q)
    ensures r.Ok? && Get(RunBlocks(r, blocks, |blocks|).value, q) == Get(r.value, q)
  {
    BlocksKeep(r, blocks, 0, |blocks|, q);
  }

  lemma {:induction false} BlockRuns(r: Edited, blocks: seq<seq<Edit>>, g: nat)
    requires g < |blocks|
    ensures RunBlocks(r, blocks, g + 1) == Continue(RunBlocks(r, blocks, g), blocks[g])
    ensures RunBlocks(r, blocks, g + 1).Ok? ==> RunBlocks(r, blocks, g).Ok?
  {
  }

  // ---------------------------------------------------------------- openness

  /** Removing what is at a path neither opens nor blocks the way to it. */
  lemma {:induction false} RemovalKeepsOpenness(y: Yaml, p: Path)
    requires p.Under?
    ensures Open(Without(y, p), p) <==> Open(y, p)
    decreases p
  {
    if y.Map? && p.key in y.fields && p.rest.Under? {
      RemovalKeepsOpenness(y.fields[p.key], p.rest);
    }
  }

  lemma {:induction false} PresentIsOpen(y: Yaml, p: Path)
    requires Get(y, p).Some?
    ensures Open(y, p)
    decreases p
  {
    if p.Under? {
      PresentIsOpen(y.fields[p.key], p.rest);
    }
  }
}
