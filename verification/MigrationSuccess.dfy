/** Exactly when the values migration can be carried out. */
module MigrationSuccess {
  import opened Wrappers
  import opened Yaml
  import opened Migration
  import opened MigrationPaths
  import opened MigrationLaws
  import S = Semver

  // ---------------------------------------------------------------- openness is stable

  lemma {:induction false} ChangeFindsOpen(e: Edit, y: Yaml, p: Path, q: Path)
    requires !e.Remove? && (p == q || Diverge(p, q)) && ChangeAt(e, y, p).Ok?
    ensures Open(ChangeAt(e, y, p).value, q) <==> Open(y, q)
    decreases p
  {
    if p.Under? && p.key == q.key {
      ChangeFindsOpen(e, ChildOf(y, p.key), p.rest, q.rest);
    } else if p.Under? && y.Null? {
      NothingUnderNull(q.rest);
    }
  }

  lemma {:induction false} RemovalFindsOpen(y: Yaml, p: Path, q: Path)
    requires p.Under? && (p == q || Diverge(p, q))
    ensures Open(Without(y, p), q) <==> Open(y, q)
    decreases p
  {
    if p == q {
      RemovalKeepsOpenness(y, p);
    } else if p.key == q.key && y.Map? && p.key in y.fields && p.rest.Under? {
      RemovalFindsOpen(y.fields[p.key], p.rest, q.rest);
    }
  }

  /** An edit neither opens nor blocks the way to any edited path. */
  lemma {:induction false} EditFindsOpen(e: Edit, y: Yaml, q: Path)
    requires WellKeyed(e.path) && WellKeyed(q) && Apply(e, y).Ok?
    ensures Open(Apply(e, y).value, q) <==> Open(y, q)
  {
    WellKeyedPathsAreApart(e.path, q);
    if e.Remove? {
      RemovalFindsOpen(y, e.path, q);
    } else {
      ChangeFindsOpen(e, y, e.path, q);
    }
  }

  predicate KeyedEdits(es: seq<Edit>) {
    forall k :: 0 <= k < |es| ==> WellKeyed(es[k].path)
  }

  lemma {:induction false} EditsFindOpen(es: seq<Edit>, y: Yaml, q: Path)
    requires KeyedEdits(es) && WellKeyed(q) && ApplyAll(es, y).Ok?
    ensures Open(ApplyAll(es, y).value, q) <==> Open(y, q)
    decreases |es|
  {
    if es != [] {
      EditFindsOpen(es[0], y, q);
      EditsFindOpen(es[1..], Apply(es[0], y).value, q);
    }
  }

  // ---------------------------------------------------------------- edits that can be made

  /** On the way to everything that `es` writes there are only maps, nulls or gaps. */
  predicate Feasible(es: seq<Edit>, y: Yaml) {
    forall k :: 0 <= k < |es| && !es[k].Remove? ==> Open(y, es[k].path)
  }

  /** Assignments away from `c`, removals, and fields added at `c`. */
  predicate Gentle(es: seq<Edit>, c: Path) {
    forall k :: 0 <= k < |es| ==>
      match es[k]
      case Assign(p, _) => p != c
      case Remove(_) => true
      case AddFields(p, v) => p == c && v.Map?
      case _ => false
  }

  /** Fields can be added at `c`, or none are. */
  predicate Addable(es: seq<Edit>, y: Yaml, c: Path) {
    Found(y, c).Null? || Found(y, c).Map? || forall k :: 0 <= k < |es| ==> !es[k].AddFields?
  }

  lemma {:induction false} GentleEdit(e: Edit, y: Yaml, c: Path)
    requires WellKeyed(e.path) && WellKeyed(c) && Gentle([e], c) && Addable([e], y, c)
    ensures Apply(e, y).Ok? <==> Feasible([e], y)
    ensures Apply(e, y).Ok? && (Found(y, c).Null? || Found(y, c).Map?) ==>
              Found(Apply(e, y).value, c).Null? || Found(Apply(e, y).value, c).Map?
  {
    assert [e][0] == e;
    if !e.Remove? {
      ChangeLands(e, y, e.path);
    }
    if e.path == c && e.Remove? {
      RemovalErases(y, c);
    } else if e.path != c && Apply(e, y).Ok? {
      WellKeyedPathsAreApart(e.path, c);
      EditSpares(e, y, c);
    }
  }

  lemma {:induction false} FeasibleLater(es: seq<Edit>, y: Yaml)
    requires es != [] && KeyedEdits(es) && Apply(es[0], y).Ok?
    ensures Feasible(es, y) <==> Feasible([es[0]], y) && Feasible(es[1..], Apply(es[0], y).value)
  {
    var y' := Apply(es[0], y).value;
    forall k | 0 < k < |es| ensures Open(y', es[k].path) <==> Open(y, es[k].path) {
      EditFindsOpen(es[0], y, es[k].path);
    }
    var rest := es[1..];
    assert forall k :: 0 <= k < |rest| ==> rest[k] == es[k + 1];
    assert forall k :: 0 < k < |es| ==> es[k] == rest[k - 1];
    assert [es[0]][0] == es[0];
  }

  lemma {:induction false} GentleEditsSucceedIff(es: seq<Edit>, y: Yaml, c: Path)
    requires KeyedEdits(es) && WellKeyed(c) && Gentle(es, c) && Addable(es, y, c)
    ensures ApplyAll(es, y).Ok? <==> Feasible(es, y)
    decreases |es|
  {
    if es != [] {
      var e, rest := es[0], es[1..];
      GentleEdit(e, y, c);
      if Apply(e, y).Ok? {
        FeasibleLater(es, y);
        GentleEditsSucceedIff(rest, Apply(e, y).value, c);
      } else {
        assert !Feasible([e], y) && !Open(y, es[0].path);
      }
    }
  }

  // ---------------------------------------------------------------- the blocks

  lemma {:induction false} BlockIsKeyed(i: Inputs, b: Block, es: seq<Edit>)
    requires es == EditsOf(i, b)
    ensures KeyedEdits(es)
  {
    BlockTouches(i, b);
    BlockIsWellKeyed(b);
    forall k | 0 <= k < |es| ensures WellKeyed(es[k].path) {
      assert es[k].path in PathsOf(b);
    }
  }

  /** The way to a well-keyed path stays as open as it was, whatever well-keyed blocks are run. */
  lemma {:induction false} RunsFindOpen(y: Yaml, bs: seq<seq<Edit>>, n: nat, q: Path)
    requires n <= |bs| && RunBlocks(Ok(y), bs, n).Ok? && WellKeyed(q) && forall g :: 0 <= g < n ==> KeyedEdits(bs[g])
    ensures Open(RunBlocks(Ok(y), bs, n).value, q) <==> Open(y, q)
    decreases n
  {
    if n > 0 {
      BlockRuns(Ok(y), bs, n - 1);
      EditsFindOpen(bs[n - 1], RunBlocks(Ok(y), bs, n - 1).value, q);
      RunsFindOpen(y, bs, n - 1, q);
    }
  }

  lemma {:induction false} BlocksFindOpen(i: Inputs, n: nat, q: Path)
    requires n <= BLOCKS && After(i, n).Ok? && WellKeyed(q)
    ensures Open(After(i, n).value, q) <==> Open(Merged(i), q)
  {
    var bs := Blocks(i);
    forall g | 0 <= g < n ensures KeyedEdits(bs[g]) {
      BlockIsKeyed(i, BlockAt(g), bs[g]);
    }
    RunsFindOpen(Merged(i), bs, n, q);
  }

  lemma {:induction false} FeasibilityIsStable(i: Inputs, n: nat, es: seq<Edit>)
    requires n <= BLOCKS && After(i, n).Ok? && KeyedEdits(es)
    ensures Feasible(es, After(i, n).value) <==> Feasible(es, Merged(i))
  {
    forall k | 0 <= k < |es| ensures Open(After(i, n).value, es[k].path) <==> Open(Merged(i), es[k].path) {
      BlocksFindOpen(i, n, es[k].path);
    }
  }

  predicate Plain(es: seq<Edit>) {
    forall k :: 0 <= k < |es| ==> es[k].Assign? || es[k].Remove?
  }

  lemma {:induction false} TargetTagsArePlain(i: Inputs)
    ensures Plain(EditsOf(i, Tags)) && Plain(EditsOf(i, RepositoryTags))
  {
    TagBlock(i);
    RepoTagBlock(i);
  }

  lemma {:induction false} LokiTagsArePlain(i: Inputs)
    ensures Plain(EditsOf(i, LokiTags)) && Plain(EditsOf(i, LocalVolumes))
  {
    LokiTagBlock(i);
    LocalpvBlock(i);
  }

  lemma {:induction false} TogglesArePlain(i: Inputs)
    ensures Plain(EditsOf(i, CrdToggles))
  {
    TogglesBlock(i);
  }

  lemma {:induction false} RenamesArePlain(i: Inputs)
    ensures Plain(EditsOf(i, Renames)) && Plain(EditsOf(i, Removals))
  {
  }

  lemma {:induction false} DefaultsArePlain(i: Inputs)
    ensures Plain(EditsOf(i, LogLevels)) && Plain(EditsOf(i, Events)) && Plain(EditsOf(i, Scraping)) && Plain(EditsOf(i, Timeouts))
  {
  }

  lemma {:induction false} BlockIsPlain(i: Inputs, b: Block)
    requires b != ClientList && b != PromtailSettings
    ensures Plain(EditsOf(i, b))
  {
    match b {
      case Tags => TargetTagsArePlain(i);
      case RepositoryTags => TargetTagsArePlain(i);
      case LokiTags => LokiTagsArePlain(i);
      case LocalVolumes => LokiTagsArePlain(i);
      case CrdToggles => TogglesArePlain(i);
      case Renames => RenamesArePlain(i);
      case Removals => RenamesArePlain(i);
      case _ => DefaultsArePlain(i);
    }
  }

  lemma {:induction false} InitContainerIsOwned(c: Path)
    requires c == InitContainerPath()
    ensures Owns(PromtailSettings, c) && WellKeyed(c)
  {
    PathOfBlock(PromtailSettings, PromtailPaths(), 1);
    PromtailAreWellKeyed();
    assert PromtailPaths()[1] == c;
  }

  /** No assignment of a plain block is at the init container. */
  lemma {:induction false} PlainBlockIsGentle(i: Inputs, b: Block, es: seq<Edit>, c: Path)
    requires es == EditsOf(i, b) && b != ClientList && b != PromtailSettings && Owns(PromtailSettings, c)
    ensures Gentle(es, c) && Plain(es)
  {
    BlockIsPlain(i, b);
    BlockTouches(i, b);
    forall k | 0 <= k < |es| && es[k].Assign? ensures es[k].path != c {
      if es[k].path == c {
        OwnersAreLast(PromtailSettings, b, c);
        RemovalsOnlyRemove(i);
      }
    }
  }

  /** Blocks other than those of promtail's clients and settings. */
  lemma {:induction false} PlainBlockSucceedsIff(i: Inputs, b: Block, es: seq<Edit>, y: Yaml, c: Path)
    requires es == EditsOf(i, b) && b != ClientList && b != PromtailSettings && c == InitContainerPath()
    ensures ApplyAll(es, y).Ok? <==> Feasible(es, y)
  {
    InitContainerIsOwned(c);
    BlockIsKeyed(i, b, es);
    PlainBlockIsGentle(i, b, es, c);
    GentleEditsSucceedIff(es, y, c);
  }

  lemma {:induction false} RemovalsOnlyRemove(i: Inputs)
    ensures forall k :: 0 <= k < |EditsOf(i, Removals)| ==> EditsOf(i, Removals)[k].Remove?
  {
  }

  // ---------------------------------------------------------------- promtail's settings

  /** The target's init containers, which the chart gives as objects. */
  predicate ObjectContainers(i: Inputs) {
    forall k :: 0 <= k < |InitContainers(i.target)| ==> InitContainers(i.target)[k].Map?
  }

  lemma {:induction false} InitContainerEditsAdd(cs: seq<Yaml>, k: nat)
    requires k < |InitContainerEdits(cs)|
    ensures |InitContainerEdits(cs)| == |cs| && InitContainerEdits(cs)[k] == AddFields(InitContainerPath(), cs[k])
    decreases |cs|
  {
    if k > 0 {
      InitContainerEditsAdd(cs[1..], k - 1);
    } else if |cs| > 1 {
      InitContainerEditsAdd(cs[1..], 0);
    }
  }

  lemma {:induction false} PromtailBlockIsGentle(i: Inputs, c: Path, file: Path, ready: Path)
    requires ObjectContainers(i) && c == InitContainerPath() && file == PromtailFilePath() && ready == ReadinessPath()
    ensures Gentle(PromtailEdits(i), c)
  {
    var cs := InitContainers(i.target);
    var added := InitContainerEdits(cs);
    forall k | 0 <= k < |added| ensures added[k].AddFields? && added[k].path == c && added[k].value.Map? {
      InitContainerEditsAdd(cs, k);
    }
    assert PromtailEdits(i) == [FromTarget(i, file)] + added + [FromTarget(i, ready)];
    assert file != c && ready != c;
  }

  /** By the time the settings are made, the old init container is gone. */
  lemma {:induction false} InitContainerIsCleared(i: Inputs, c: Path)
    requires BeforeTwoSix(i) && c == InitContainerPath() && After(i, 9).Ok?
    ensures Get(After(i, 9).value, c) == None
  {
    var r, bs := Ok(Merged(i)), Blocks(i);
    BlockRuns(r, bs, 8);
    BlockRuns(r, bs, 7);
    InitContainerIsRemoved(i, RunBlocks(r, bs, 7), bs[7]);
    ClientsSpareInitContainer(i, bs[8], c);
    ContinueSpares(RunBlocks(r, bs, 8), bs[8], c);
  }

  lemma {:induction false} InitContainerIsRemoved(i: Inputs, r: Edited, es: seq<Edit>)
    requires es == EditsOf(i, Removals) && BeforeTwoSix(i) && Continue(r, es).Ok?
    ensures Get(Continue(r, es).value, InitContainerPath()) == None
  {
    RemovalEditsEnd(es);
    BlockTouches(i, Removals);
    EditLands(r, es, 2, Removals);
  }

  lemma {:induction false} RemovalEditsEnd(es: seq<Edit>)
    requires es == RemovalEdits()
    ensures |es| == 3 && es[2] == Remove(InitContainerPath())
  {
  }

  lemma {:induction false} ClientsSpareInitContainer(i: Inputs, es: seq<Edit>, c: Path)
    requires es == EditsOf(i, ClientList) && c == InitContainerPath()
    ensures Spares(es, c)
  {
    InitContainerIsOwned(c);
    BlockIsKeyed(i, ClientList, es);
    BlockTouches(i, ClientList);
    forall k | 0 <= k < |es| ensures Diverge(es[k].path, c) {
      if es[k].path == c {
        OwnersAreLast(PromtailSettings, ClientList, c);
      }
      WellKeyedPathsAreApart(es[k].path, c);
    }
  }

  lemma {:induction false} GentlePromtailBlock(i: Inputs, es: seq<Edit>, c: Path)
    requires BeforeTwoSix(i) && ObjectContainers(i) && es == EditsOf(i, PromtailSettings) && c == InitContainerPath()
    ensures Gentle(es, c)
  {
    PromtailBlock(i);
    PromtailBlockIsGentle(i, c, PromtailFilePath(), ReadinessPath());
  }

  lemma {:induction false} PromtailBlockSucceedsIff(i: Inputs, es: seq<Edit>, y: Yaml, c: Path)
    requires es == EditsOf(i, PromtailSettings) && ObjectContainers(i) && c == InitContainerPath()
    requires BeforeTwoSix(i) ==> Get(y, c) == None
    ensures ApplyAll(es, y).Ok? <==> Feasible(es, y)
  {
    if BeforeTwoSix(i) {
      InitContainerIsOwned(c);
      BlockIsKeyed(i, PromtailSettings, es);
      GentlePromtailBlock(i, es, c);
      GentleEditsSucceedIff(es, y, c);
    }
  }

  // ---------------------------------------------------------------- promtail's clients

  lemma {:induction false} RemovalsSucceed(a: Path, b: Path, y: Yaml)
    ensures ApplyAll([Remove(a), Remove(b)], y).Ok?
  {
    var es := [Remove(a), Remove(b)];
    assert es[1..] == [Remove(b)] && es[1..][1..] == [];
    assert ApplyAll(es[1..], Without(y, a)) == Ok(Without(Without(y, a), b));
  }

  lemma {:induction false} ClientEditsSucceedIff(i: Inputs, p: Path, a: Path, b: Path, y: Yaml)
    requires p.Under?
    ensures var es := [Remove(p), AppendItem(p, ClientOf(i))] + ExtraClientEdit(i, p) + [Remove(a), Remove(b)];
            ApplyAll(es, y).Ok? <==> Feasible(es, y) && MigratedClient(i).Ok?
  {
    var first, last := [Remove(p), AppendItem(p, ClientOf(i))] + ExtraClientEdit(i, p), [Remove(a), Remove(b)];
    EditsSplit(first, last, y);
    ClientListAfterEdits(i, p, y);
    if ApplyAll(first, y).Ok? {
      RemovalsSucceed(a, b, ApplyAll(first, y).value);
    }
    var es := first + last;
    assert es[1] == AppendItem(p, ClientOf(i));
    assert forall k :: 0 <= k < |es| && !es[k].Remove? ==> es[k].path == p;
  }

  lemma {:induction false} ClientBlockSucceedsIff(i: Inputs, es: seq<Edit>, y: Yaml)
    requires es == EditsOf(i, ClientList)
    ensures ApplyAll(es, y).Ok? <==> Feasible(es, y) && (BeforeTwoSix(i) ==> MigratedClient(i).Ok?)
  {
    if BeforeTwoSix(i) {
      ClientBlockEnds(i);
      ClientEditParts(i);
      ClientEditsSucceedIff(i, ClientsPath(), ExtraClientsPath(), LokiAddressPath(), y);
    }
  }

  // ---------------------------------------------------------------- the whole migration

  /** Block `b` can be carried out on the merged values. */
  predicate CanMake(i: Inputs, b: Block) {
    Feasible(EditsOf(i, b), Merged(i)) && (b == ClientList && BeforeTwoSix(i) ==> MigratedClient(i).Ok?)
  }

  lemma {:induction false} BlockSucceedsIff(i: Inputs, n: nat, b: Block)
    requires n < BLOCKS && BlockAt(n) == b && After(i, n).Ok? && ObjectContainers(i)
    ensures After(i, n + 1).Ok? <==> CanMake(i, b)
  {
    var y, es := After(i, n).value, EditsOf(i, b);
    BlockRuns(Ok(Merged(i)), Blocks(i), n);
    BlockIs(i, n, b);
    BlockIsKeyed(i, b, es);
    FeasibilityIsStable(i, n, es);
    if b == ClientList {
      ClientBlockSucceedsIff(i, es, y);
    } else if b == PromtailSettings {
      PlacesAreDistinct(n);
      if BeforeTwoSix(i) {
        InitContainerIsCleared(i, InitContainerPath());
      }
      PromtailBlockSucceedsIff(i, es, y, InitContainerPath());
    } else {
      PlainBlockSucceedsIff(i, b, es, y, InitContainerPath());
    }
  }

  /** The first `n` blocks are all among those that can be made. */
  predicate AllFirst(can: set<Block>, n: nat)
    requires n <= BLOCKS
    decreases n, can
  {
    n > 0 ==> AllFirst(can, n - 1) && BlockAt(n - 1) in can
  }

  lemma {:induction false} AllFirstIff(can: set<Block>, n: nat)
    requires n <= BLOCKS
    ensures AllFirst(can, n) <==> forall b: Block :: Place(b) < n ==> b in can
    decreases n
  {
    if n > 0 {
      AllFirstIff(can, n - 1);
      PlacesAreDistinct(n - 1);
    }
  }

  lemma {:induction false} NextBlockSucceedsIff(i: Inputs, n: nat)
    requires n < BLOCKS && ObjectContainers(i)
    ensures After(i, n + 1).Ok? <==> After(i, n).Ok? && CanMake(i, BlockAt(n))
  {
    BlockRuns(Ok(Merged(i)), Blocks(i), n);
    if After(i, n).Ok? {
      BlockSucceedsIff(i, n, BlockAt(n));
    }
  }

  /** A chain of successes: each block succeeds after the ones before it exactly if it can be made. */
  lemma {:induction false} ChainIff(can: set<Block>, ok: seq<bool>, n: nat)
    requires n <= BLOCKS && |ok| == BLOCKS + 1 && ok[0]
    requires forall g :: 0 <= g < BLOCKS ==> ok[g + 1] == (ok[g] && BlockAt(g) in can)
    ensures ok[n] <==> AllFirst(can, n)
    decreases n
  {
    if n > 0 {
      ChainIff(can, ok, n - 1);
      assert ok[n - 1 + 1] == (ok[n - 1] && BlockAt(n - 1) in can);
    }
  }

  lemma {:induction false} BlocksSucceedIff(i: Inputs, can: set<Block>)
    requires ObjectContainers(i) && forall b: Block :: b in can <==> CanMake(i, b)
    ensures After(i, BLOCKS).Ok? <==> AllFirst(can, BLOCKS)
  {
    var ok := seq(BLOCKS + 1, n requires 0 <= n <= BLOCKS => After(i, n).Ok?);
    forall g | 0 <= g < BLOCKS ensures ok[g + 1] == (ok[g] && BlockAt(g) in can) {
      NextBlockSucceedsIff(i, g);
    }
    ChainIff(can, ok, BLOCKS);
  }

  /** The extra client configuration of a source before 2.6.0, if it has one, parses to an object. */
  predicate ExtraClientIsObject(i: Inputs) {
    BeforeTwoSix(i) && HasExtraClient(i) ==> i.extraClient.Some? && i.extraClient.value.Map?
  }

  lemma {:induction false} ClientSucceedsIff(i: Inputs)
    ensures ExtraClientIsObject(i) <==> !BadExtraClient(i) && (BeforeTwoSix(i) ==> MigratedClient(i).Ok?)
  {
  }

  lemma {:induction false} CanMakeAllIff(i: Inputs)
    ensures (forall b: Block :: CanMake(i, b)) <==>
            (BeforeTwoSix(i) ==> MigratedClient(i).Ok?) && forall b: Block :: Feasible(EditsOf(i, b), Merged(i))
  {
    if forall b: Block :: CanMake(i, b) {
      assert CanMake(i, ClientList);
      forall b: Block ensures Feasible(EditsOf(i, b), Merged(i)) {
        assert CanMake(i, b);
      }
    }
  }

  /**
    The migration completes exactly when the merged values have only maps, nulls or gaps on
    the way to everything that the versions call to be written, and the extra client
    configuration that a source before 2.6.0 may have parses to an object.
   */
  lemma {:induction false} MigrationCompletesIff(i: Inputs)
    requires ObjectContainers(i)
    ensures Migrate(i).Ok? <==>
            ExtraClientIsObject(i) && forall b: Block :: Feasible(EditsOf(i, b), Merged(i))
  {
    ClientSucceedsIff(i);
    var can := set b: Block | CanMake(i, b);
    BlocksSucceedIff(i, can);
    AllFirstIff(can, BLOCKS);
    CanMakeAllIff(i);
  }

  /** Values that nowhere hold a scalar or array on the way to an edited path can be migrated. */
  lemma {:induction false} OpenValuesMigrate(i: Inputs)
    requires ObjectContainers(i) && ExtraClientIsObject(i)
    requires forall b: Block, k :: 0 <= k < |PathsOf(b)| ==> Open(Merged(i), PathsOf(b)[k])
    ensures Migrate(i).Ok?
  {
    forall b: Block ensures Feasible(EditsOf(i, b), Merged(i)) {
      BlockTouches(i, b);
    }
    MigrationCompletesIff(i);
  }

  // ---------------------------------------------------------------- the init container

  /** Objects laid over each other, the first one lowest. */
  function Overlay(prior: Yaml, cs: seq<Yaml>): Yaml
    decreases |cs|
  {
    if cs == [] then prior
    else if prior.Map? && cs[0].Map? then Overlay(Map(prior.fields + cs[0].fields), cs[1..])
    else Overlay(cs[0], cs[1..])
  }

  lemma {:induction false} ContainersOverlay(cs: seq<Yaml>, es: seq<Edit>, y: Yaml, c: Path)
    requires (forall k :: 0 <= k < |cs| ==> cs[k].Map?) && c.Under? && c == InitContainerPath() && es == InitContainerEdits(cs)
    requires (Found(y, c).Null? || Found(y, c).Map?) && ApplyAll(es, y).Ok?
    ensures if cs == [] then Get(ApplyAll(es, y).value, c) == Get(y, c)
            else Get(ApplyAll(es, y).value, c) == Some(Overlay(Found(y, c), cs))
    decreases |cs|
  {
    if cs != [] {
      var e, y' := es[0], Apply(es[0], y).value;
      assert es[1..] == InitContainerEdits(cs[1..]);
      ChangeLands(e, y, c);
      ContainersOverlay(cs[1..], es[1..], y', c);
    }
  }

  lemma {:induction false} SpareBothEnds(first: Edit, middle: seq<Edit>, last: Edit, y: Yaml, c: Path)
    requires Diverge(first.path, c) && Diverge(last.path, c) && ApplyAll([first] + middle + [last], y).Ok?
    ensures Apply(first, y).Ok? && ApplyAll(middle, Apply(first, y).value).Ok?
    ensures Get(Apply(first, y).value, c) == Get(y, c)
    ensures Get(ApplyAll([first] + middle + [last], y).value, c) == Get(ApplyAll(middle, Apply(first, y).value).value, c)
  {
    var all := [first] + middle;
    EditsSplit(all, [last], y);
    EditsSplit([first], middle, y);
    assert ApplyAll([first], y) == Apply(first, y);
    EditSpares(first, y, c);
    EditsSpare([last], ApplyAll(all, y).value, c);
  }

  lemma {:induction false} SettingsAreApart(c: Path, file: Path, ready: Path)
    requires c == InitContainerPath() && file == PromtailFilePath() && ready == ReadinessPath()
    ensures Diverge(file, c) && Diverge(ready, c)
  {
    PromtailAreWellKeyed();
    var ps := PromtailPaths();
    assert WellKeyed(ps[0]) && WellKeyed(ps[1]) && WellKeyed(ps[2]);
    WellKeyedPathsAreApart(ps[0], ps[1]);
    WellKeyedPathsAreApart(ps[2], ps[1]);
  }

  /**
    For sources before 2.6.0 promtail's init container is what the target's containers make
    when laid over each other, as one object; whatever the source or the merge had is gone.
   */
  lemma {:induction false} InitContainersAreOverlaid(i: Inputs, v: Yaml)
    requires MigratesTo(i, v) && BeforeTwoSix(i) && ObjectContainers(i)
    ensures Get(v, P3(LokiStack, Promtail, InitContainer)) ==
            if InitContainers(i.target) == [] then None else Some(Overlay(Null, InitContainers(i.target)))
  {
    var c := InitContainerPath();
    var y := BeforeSettings(i, v, c);
    SettingsAreApart(c, PromtailFilePath(), ReadinessPath());
    OverlaidBetween(FromTarget(i, PromtailFilePath()), InitContainers(i.target), FromTarget(i, ReadinessPath()), y, c);
  }

  lemma {:induction false} OverlaidBetween(first: Edit, cs: seq<Yaml>, last: Edit, y: Yaml, c: Path)
    requires Diverge(first.path, c) && Diverge(last.path, c) && c == InitContainerPath() && Get(y, c) == None
    requires (forall k :: 0 <= k < |cs| ==> cs[k].Map?) && ApplyAll([first] + InitContainerEdits(cs) + [last], y).Ok?
    ensures Get(ApplyAll([first] + InitContainerEdits(cs) + [last], y).value, c) == if cs == [] then None else Some(Overlay(Null, cs))
  {
    var es := InitContainerEdits(cs);
    SpareBothEnds(first, es, last, y, c);
    ContainersOverlay(cs, es, Apply(first, y).value, c);
  }

  /** The values to which promtail's settings are applied: they decide about the init container, and there is none yet. */
  lemma {:induction false} BeforeSettings(i: Inputs, v: Yaml, c: Path) returns (y: Yaml)
    requires MigratesTo(i, v) && BeforeTwoSix(i) && c == InitContainerPath()
    ensures Get(y, c) == None && ApplyAll(PromtailEdits(i), y).Ok?
    ensures Get(v, c) == Get(ApplyAll(PromtailEdits(i), y).value, c)
  {
    InitContainerIsOwned(c);
    forall h | 9 < h < BLOCKS ensures c !in PathsOf(BlockAt(h)) {
      PlacesAreDistinct(h);
      OthersLeaveToOwner(PromtailSettings, BlockAt(h), c);
    }
    LastBlockDecides(i, v, 9, c);
    BlockIs(i, 9, PromtailSettings);
    InitContainerIsCleared(i, c);
    y := After(i, 9).value;
  }
}
