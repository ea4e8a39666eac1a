/**
  The migration as a sequence of blocks of edits, the paths that each block touches, and what
  that says about the value at any path.
 */
module MigrationPaths {
  import opened Wrappers
  import opened Yaml
  import opened Migration
  import S = Semver

  // ---------------------------------------------------------------- the paths that edits touch

  function RepoTagPaths(): seq<Path> {
    [P3(Image, RepoTags, ControlPlane), P3(Image, RepoTags, DataPlane), P3(Image, RepoTags, Extensions)]
  }

  function LocalpvPaths(): seq<Path> {
    [LocalpvVersionPath(), P4(LocalpvProvisioner, Localpv, Image, Tag), P4(LocalpvProvisioner, HelperPod, Image, Tag)]
  }

  function LokiStackTagPaths(): seq<Path> {
    [P4(LokiStack, Loki, Image, Tag), P3(LokiStack, Filebeat, ImageTag), P3(LokiStack, Logstash, ImageTag),
     P4(LokiStack, Grafana, DownloadDashboardsImage, Tag), P4(LokiStack, Grafana, Image, Tag),
     P5(LokiStack, Grafana, Sidecar, Image, Tag), P5(LokiStack, Prometheus, Alertmanager, Image, Tag),
     P5(LokiStack, Prometheus, NodeExporter, Image, Tag), P5(LokiStack, Prometheus, Pushgateway, Image, Tag),
     P5(LokiStack, Prometheus, Server, Image, Tag)]
  }

  function RemovedPaths(): seq<Path> {
    [KvstorePath(), ExtraClientsPath(), InitContainerPath()]
  }

  function ClientPaths(): seq<Path> {
    [ClientsPath(), ExtraClientsPath(), LokiAddressPath()]
  }

  function PromtailFilePath(): Path { P4(LokiStack, Promtail, Config, File) }
  function ReadinessPath(): Path { P5(LokiStack, Promtail, ReadinessProbe, HttpGet, HttpPath) }

  function PromtailPaths(): seq<Path> {
    [PromtailFilePath(), InitContainerPath(), ReadinessPath()]
  }

  function RenamePaths(): seq<Path> {
    [SilenceLevelPath(), LogSilenceLevelPath(), PluginMountPathPath(), PluginMounthPathPath(), P3(JaegerOperator, Image, Tag)]
  }

  function TagPaths(): seq<Path> {
    [P2(Image, Tag), CsiTagPath(ProvisionerTag), CsiTagPath(AttacherTag), CsiTagPath(SnapshotterTag),
     CsiTagPath(SnapshotControllerTag), CsiTagPath(RegistrarTag), CsiTagPath(ResizerTag)]
  }

  function SnapshotTogglePath(): Path { P4(Crds, Csi, VolumeSnapshots, Enabled) }
  function JaegerTogglePath(): Path { P3(Crds, Jaeger, Enabled) }

  function CrdPaths(): seq<Path> {
    [SnapshotTogglePath(), JaegerTogglePath()]
  }

  /** Every path that a block touches, whatever the versions. */
  function PathsOf(b: Block): seq<Path> {
    match b
    case LogLevels => [LogLevelPath()]
    case RepositoryTags => RepoTagPaths()
    case Events => [EventingPath()]
    case Scraping => [ScrapeConfigsPath()]
    case Timeouts => [IoTimeoutPath()]
    case LocalVolumes => LocalpvPaths()
    case LokiTags => LokiStackTagPaths()
    case Removals => RemovedPaths()
    case ClientList => ClientPaths()
    case PromtailSettings => PromtailPaths()
    case Renames => RenamePaths()
    case Tags => TagPaths()
    case CrdToggles => CrdPaths()
  }

  /**
    The migration succeeds, and `v` are the migrated values: the same as `Migrate(i) == Ok(v)`.
    The quantifier over one value only keeps the verifier from unfolding the migration.
   */
  ghost predicate MigratesTo(i: Inputs, v: Yaml) {
    forall j: Inputs :: j == i ==> Migrate(j) == Ok(v)
  }

  lemma {:induction false} MigratesToIff(i: Inputs, v: Yaml)
    ensures MigratesTo(i, v) <==> Migrate(i) == Ok(v)
  {
    if MigratesTo(i, v) {
      assert Migrate(i) == Ok(v);
    }
  }

  lemma {:induction false} BlocksLeadTo(i: Inputs, v: Yaml)
    requires MigratesTo(i, v)
    ensures RunBlocks(Ok(Merged(i)), Blocks(i), BLOCKS) == Ok(v)
  {
    MigratesToIff(i, v);
  }

  // ---------------------------------------------------------------- blocks touch their own paths only

  predicate Touches(es: seq<Edit>, ps: seq<Path>) {
    forall k :: 0 <= k < |es| ==> es[k].path in ps
  }

  lemma {:induction false} LokiTagsTouch(i: Inputs)
    ensures Touches(LokiStackTagEdits(i), LokiStackTagPaths())
  {
    assert forall k :: 0 <= k < |LokiStackTagEdits(i)| ==> LokiStackTagEdits(i)[k].path == LokiStackTagPaths()[k];
  }

  lemma {:induction false} LocalpvTouches(i: Inputs)
    ensures Touches(LocalpvEdits(i), LocalpvPaths())
  {
    assert forall k :: 0 <= k < |LocalpvEdits(i)| ==> LocalpvEdits(i)[k].path == LocalpvPaths()[k];
  }

  lemma {:induction false} RemovalsTouch()
    ensures Touches(RemovalEdits(), RemovedPaths())
  {
    assert forall k :: 0 <= k < |RemovalEdits()| ==> RemovalEdits()[k].path == RemovedPaths()[k];
  }

  lemma {:induction false} ClientsTouch(i: Inputs)
    ensures Touches(ClientEdits(i), ClientPaths())
  {
    var ps := ClientPaths();
    assert ps[0] in ps && ps[1] in ps && ps[2] in ps;
  }

  lemma {:induction false} PromtailTouches(i: Inputs)
    ensures Touches(PromtailEdits(i), PromtailPaths())
  {
    var ps := PromtailPaths();
    assert ps[0] in ps && ps[1] in ps && ps[2] in ps;
  }

  lemma {:induction false} RenamesTouch(i: Inputs)
    ensures Touches(RenameEdits(i), RenamePaths())
  {
    assert forall k :: 0 <= k < |RenameEdits(i)| ==> RenameEdits(i)[k].path == RenamePaths()[k];
  }

  lemma {:induction false} TagsTouch(i: Inputs)
    ensures Touches(TagEdits(i), TagPaths())
  {
    assert forall k :: 0 <= k < |TagEdits(i)| ==> TagEdits(i)[k].path == TagPaths()[k];
  }

  lemma {:induction false} RepoTagsTouch(i: Inputs)
    ensures Touches(RepoTagEdits(i), RepoTagPaths())
  {
    assert forall k :: 0 <= k < |RepoTagEdits(i)| ==> RepoTagEdits(i)[k].path == RepoTagPaths()[k];
  }

  lemma {:induction false} CrdsTouch(i: Inputs)
    ensures Touches(CrdEdits(i), CrdPaths())
  {
    var ps := CrdPaths();
    assert ps[0] in ps && ps[1] in ps;
  }

  lemma {:induction false} DefaultsTouch(i: Inputs)
    ensures Touches(LogLevelEdits(i), [LogLevelPath()]) && Touches(EventingEdits(i), [EventingPath()])
    ensures Touches(ScrapeConfigEdits(i), [ScrapeConfigsPath()]) && Touches(IoTimeoutEdits(i), [IoTimeoutPath()])
  {
  }

  lemma {:induction false} TwoSixTouches(i: Inputs, b: Block, es: seq<Edit>, ps: seq<Path>)
    requires OnlyBeforeTwoSix(b) && BeforeTwoSix(i) && es == EditsOf(i, b) && ps == PathsOf(b)
    ensures Touches(es, ps)
  {
    match b {
      case LocalVolumes => LocalpvTouches(i);
      case LokiTags => LokiTagsTouch(i);
      case Removals => RemovalsTouch();
      case ClientList => ClientsTouch(i);
      case PromtailSettings => PromtailTouches(i);
      case Renames => RenamesTouch(i);
    }
  }

  lemma {:induction false} OtherTouches(i: Inputs, b: Block, es: seq<Edit>, ps: seq<Path>)
    requires !OnlyBeforeTwoSix(b) && es == EditsOf(i, b) && ps == PathsOf(b)
    ensures Touches(es, ps)
  {
    match b {
      case RepositoryTags => RepoTagsTouch(i);
      case Tags => TagsTouch(i);
      case CrdToggles => CrdsTouch(i);
      case _ => DefaultsTouch(i);
    }
  }

  lemma {:induction false} BlockTouches(i: Inputs, b: Block)
    ensures Touches(EditsOf(i, b), PathsOf(b))
  {
    if !OnlyBeforeTwoSix(b) {
      OtherTouches(i, b, EditsOf(i, b), PathsOf(b));
    } else if BeforeTwoSix(i) {
      TwoSixTouches(i, b, EditsOf(i, b), PathsOf(b));
    }
  }

  predicate Avoids(ps: seq<Path>, q: Path) {
    forall k :: 0 <= k < |ps| ==> Diverge(ps[k], q)
  }

  lemma {:induction false} BlockIs(i: Inputs, g: nat, b: Block)
    requires g < BLOCKS && BlockAt(g) == b
    ensures Blocks(i)[g] == EditsOf(i, b)
  {
  }

  lemma {:induction false} BlockSpares(i: Inputs, g: nat, q: Path)
    requires g < BLOCKS && Avoids(PathsOf(BlockAt(g)), q)
    ensures Spares(Blocks(i)[g], q)
  {
    BlockTouches(i, BlockAt(g));
  }

  // ---------------------------------------------------------------- edited paths are apart

  /** Field names under which the edited paths go on; no edited path ends in one of them. */
  predicate IsSection(k: Key) {
    match k
    case IoEngine => true
    case Image => true
    case RepoTags => true
    case Eventing => true
    case LokiStack => true
    case Promtail => true
    case Config => true
    case Snippets => true
    case Csi => true
    case Node => true
    case Nvme => true
    case LocalpvProvisioner => true
    case Release => true
    case Localpv => true
    case HelperPod => true
    case Loki => true
    case Filebeat => true
    case Logstash => true
    case Grafana => true
    case DownloadDashboardsImage => true
    case Sidecar => true
    case Prometheus => true
    case Alertmanager => true
    case NodeExporter => true
    case Pushgateway => true
    case Server => true
    case Ingester => true
    case Lifecycler => true
    case Ring => true
    case ReadinessProbe => true
    case HttpGet => true
    case Base => true
    case Logging => true
    case JaegerOperator => true
    case Crds => true
    case VolumeSnapshots => true
    case Jaeger => true
    case _ => false
  }

  /** A path through sections to something that is none. */
  predicate WellKeyed(p: Path) {
    p.Under? && if p.rest.Here? then !IsSection(p.key) else IsSection(p.key) && WellKeyed(p.rest)
  }

  /** No well-keyed path leads through another. */
  lemma {:induction false} WellKeyedPathsAreApart(p: Path, q: Path)
    requires WellKeyed(p) && WellKeyed(q)
    ensures p == q || Diverge(p, q)
  {
    if p.key == q.key && !p.rest.Here? {
      WellKeyedPathsAreApart(p.rest, q.rest);
    }
  }

  predicate AllWellKeyed(ps: seq<Path>) {
    forall k :: 0 <= k < |ps| ==> WellKeyed(ps[k])
  }

  lemma {:induction false} LokiTagsAreWellKeyed()
    ensures AllWellKeyed(LokiStackTagPaths())
  {
  }

  lemma {:induction false} RemovedAreWellKeyed()
    ensures AllWellKeyed(RemovedPaths())
  {
  }

  lemma {:induction false} PromtailAreWellKeyed()
    ensures AllWellKeyed(PromtailPaths())
  {
  }

  lemma {:induction false} ClientsAreWellKeyed()
    ensures AllWellKeyed(ClientPaths())
  {
  }

  lemma {:induction false} RenamesAreWellKeyed()
    ensures AllWellKeyed(RenamePaths())
  {
  }

  lemma {:induction false} TagsAreWellKeyed()
    ensures AllWellKeyed(TagPaths())
  {
  }

  lemma {:induction false} RepoTagsAreWellKeyed()
    ensures AllWellKeyed(RepoTagPaths()) && AllWellKeyed(CrdPaths())
  {
  }

  lemma {:induction false} OthersAreWellKeyed()
    ensures AllWellKeyed(LocalpvPaths())
    ensures WellKeyed(LogLevelPath()) && WellKeyed(EventingPath()) && WellKeyed(ScrapeConfigsPath()) && WellKeyed(IoTimeoutPath())
  {
  }

  lemma {:induction false} TwoSixIsWellKeyed(b: Block)
    requires OnlyBeforeTwoSix(b)
    ensures AllWellKeyed(PathsOf(b))
  {
    match b {
      case LocalVolumes => OthersAreWellKeyed();
      case LokiTags => LokiTagsAreWellKeyed();
      case Removals => RemovedAreWellKeyed();
      case PromtailSettings => PromtailAreWellKeyed();
      case ClientList => ClientsAreWellKeyed();
      case Renames => RenamesAreWellKeyed();
    }
  }

  lemma {:induction false} BlockIsWellKeyed(b: Block)
    ensures AllWellKeyed(PathsOf(b))
  {
    if OnlyBeforeTwoSix(b) {
      TwoSixIsWellKeyed(b);
    } else {
      match b {
        case RepositoryTags => RepoTagsAreWellKeyed();
        case CrdToggles => RepoTagsAreWellKeyed();
        case Tags => TagsAreWellKeyed();
        case _ => OthersAreWellKeyed();
      }
    }
  }

  /** A path that some block touches is apart from the paths of every block that does not touch it. */
  lemma {:induction false} BlocksAreApart(b: Block, c: Block, q: Path)
    requires q in PathsOf(b) && q !in PathsOf(c)
    ensures Avoids(PathsOf(c), q)
  {
    BlockIsWellKeyed(b);
    BlockIsWellKeyed(c);
    forall k | 0 <= k < |PathsOf(c)| ensures Diverge(PathsOf(c)[k], q) {
      WellKeyedPathsAreApart(PathsOf(c)[k], q);
    }
  }

  // ---------------------------------------------------------------- the value at a path

  /** `q` is not on the way to an edited path, nor beyond one. */
  predicate OffEditedPaths(q: Path) {
    forall b: Block :: Avoids(PathsOf(b), q)
  }

  /** Whatever the versions, a path off the edited ones keeps its merged value. */
  lemma {:induction false} UneditedPathsKeepMergedValue(i: Inputs, v: Yaml, q: Path)
    requires MigratesTo(i, v) && OffEditedPaths(q)
    ensures Get(v, q) == Get(Merged(i), q)
  {
    BlocksLeadTo(i, v);
    var r, bs := Ok(Merged(i)), Blocks(i);
    forall g | 0 <= g < |bs| ensures Spares(bs[g], q) {
      BlockSpares(i, g, q);
    }
    AllBlocksKeep(r, bs, q);
  }

  lemma {:induction false} BlockWithoutPathSpares(i: Inputs, g: nat, h: nat, q: Path)
    requires g < BLOCKS && h < BLOCKS && q in PathsOf(BlockAt(g)) && q !in PathsOf(BlockAt(h))
    ensures Spares(Blocks(i)[h], q)
  {
    BlocksAreApart(BlockAt(g), BlockAt(h), q);
    BlockSpares(i, h, q);
  }

  /** Where block `g` is the last one to touch `q`, it decides what `q` ends as. */
  lemma {:induction false} LastBlockDecides(i: Inputs, v: Yaml, g: nat, q: Path)
    requires MigratesTo(i, v) && g < BLOCKS && q in PathsOf(BlockAt(g))
    requires forall h :: g < h < BLOCKS ==> q !in PathsOf(BlockAt(h))
    ensures After(i, g).Ok? && Continue(After(i, g), Blocks(i)[g]).Ok?
    ensures Get(v, q) == Get(Continue(After(i, g), Blocks(i)[g]).value, q)
  {
    BlocksLeadTo(i, v);
    forall h | g < h < BLOCKS ensures Spares(Blocks(i)[h], q) {
      BlockWithoutPathSpares(i, g, h, q);
    }
    BlocksKeep(Ok(Merged(i)), Blocks(i), g + 1, BLOCKS, q);
    BlockRuns(Ok(Merged(i)), Blocks(i), g);
  }

  /** Where block `g` is the first one to touch `q`, it finds the merged value there. */
  lemma {:induction false} FirstBlockFindsMerged(i: Inputs, g: nat, q: Path)
    requires g < BLOCKS && After(i, g).Ok? && q in PathsOf(BlockAt(g))
    requires forall h :: 0 <= h < g ==> q !in PathsOf(BlockAt(h))
    ensures Get(After(i, g).value, q) == Get(Merged(i), q)
  {
    forall h | 0 <= h < g ensures Spares(Blocks(i)[h], q) {
      BlockWithoutPathSpares(i, g, h, q);
    }
    BlocksKeep(Ok(Merged(i)), Blocks(i), 0, g, q);
  }

  /** Within a block, the last edit at a path decides what it holds afterwards. */
  lemma {:induction false} EditLands(r: Edited, es: seq<Edit>, k: nat, b: Block)
    requires k < |es| && Continue(r, es).Ok? && Touches(es, PathsOf(b))
    requires forall j :: k < j < |es| ==> es[j].path != es[k].path
    ensures es[k].Assign? ==> Get(Continue(r, es).value, es[k].path) == Some(es[k].value)
    ensures es[k].Remove? ==> Get(Continue(r, es).value, es[k].path) == None
  {
    BlockIsWellKeyed(b);
    assert es[k].path in PathsOf(b);
    var later := es[k + 1..];
    forall j | 0 <= j < |later| ensures Diverge(later[j].path, es[k].path) {
      assert later[j] == es[k + 1 + j] && es[k + 1 + j].path in PathsOf(b);
      WellKeyedPathsAreApart(later[j].path, es[k].path);
    }
    EditStays(r, es, k);
  }

  // ---------------------------------------------------------------- the block that owns a path

  /** The last block to touch an edited path, told by the keys on the way. */
  function Owner(p: Path): Block
    requires p.Under?
  {
    match p.key
    case IoEngine => LogLevels
    case Eventing => Events
    case LocalpvProvisioner => LocalVolumes
    case Base => Renames
    case JaegerOperator => Renames
    case Crds => CrdToggles
    case Image => if p.rest.Under? && p.rest.key.RepoTags? then RepositoryTags else Tags
    case Csi =>
      if p.rest.Here? || p.rest.key.Image? then Tags
      else if p.rest.rest.Under? && p.rest.rest.key.Nvme? then Timeouts else Renames
    case _ => if p.rest.Under? then OwnerInLokiStack(p.rest) else LokiTags
  }

  function OwnerInLokiStack(p: Path): Block
    requires p.Under?
  {
    if p.key.Loki? && p.rest.Under? && p.rest.key.Config? then Removals
    else if !p.key.Promtail? || p.rest.Here? then LokiTags
    else if !p.rest.key.Config? || p.rest.rest.Here? || p.rest.rest.key.File? then PromtailSettings
    else if p.rest.rest.rest.Under? && p.rest.rest.rest.key.ScrapeConfigs? then Scraping
    else ClientList
  }

  /** `q` is a path that block `b` touches, and no block touches it later. */
  predicate Owns(b: Block, q: Path) {
    q in PathsOf(b) && q.Under? && Owner(q) == b
  }

  lemma {:induction false} LokiTagsAreOwned(k: nat)
    requires k < |LokiStackTagPaths()|
    ensures LokiStackTagPaths()[k].Under? && Owner(LokiStackTagPaths()[k]) == LokiTags
  {
  }

  lemma {:induction false} LocalpvIsOwned(k: nat)
    requires k < |LocalpvPaths()|
    ensures LocalpvPaths()[k].Under? && Owner(LocalpvPaths()[k]) == LocalVolumes
  {
  }

  lemma {:induction false} RemovedAreOwned(k: nat)
    requires k < |RemovedPaths()|
    ensures RemovedPaths()[k].Under?
    ensures Owner(RemovedPaths()[k]) == if k == 0 then Removals else if k == 1 then ClientList else PromtailSettings
  {
  }

  lemma {:induction false} ClientsAreOwned(k: nat)
    requires k < |ClientPaths()|
    ensures ClientPaths()[k].Under? && Owner(ClientPaths()[k]) == ClientList
  {
  }

  lemma {:induction false} PromtailIsOwned(k: nat)
    requires k < |PromtailPaths()|
    ensures PromtailPaths()[k].Under? && Owner(PromtailPaths()[k]) == PromtailSettings
  {
  }

  lemma {:induction false} RenamesAreOwned(k: nat)
    requires k < |RenamePaths()|
    ensures RenamePaths()[k].Under? && Owner(RenamePaths()[k]) == Renames
  {
  }

  lemma {:induction false} TagsAreOwned(k: nat)
    requires k < |TagPaths()|
    ensures TagPaths()[k].Under? && Owner(TagPaths()[k]) == Tags
  {
  }

  lemma {:induction false} RepoTagsAreOwned(k: nat)
    requires k < |RepoTagPaths()|
    ensures RepoTagPaths()[k].Under? && Owner(RepoTagPaths()[k]) == RepositoryTags
  {
  }

  lemma {:induction false} TogglesAreOwned(k: nat)
    requires k < |CrdPaths()|
    ensures CrdPaths()[k].Under? && Owner(CrdPaths()[k]) == CrdToggles
  {
  }

  lemma {:induction false} DefaultsAreOwned()
    ensures Owner(LogLevelPath()) == LogLevels && Owner(EventingPath()) == Events
    ensures Owner(ScrapeConfigsPath()) == Scraping && Owner(IoTimeoutPath()) == Timeouts
  {
  }

  lemma {:induction false} TwoSixPathIsOwned(b: Block, ps: seq<Path>, k: nat)
    requires OnlyBeforeTwoSix(b) && !b.Removals? && ps == PathsOf(b) && k < |ps|
    ensures ps[k].Under? && Owner(ps[k]) == b
  {
    match b {
      case LokiTags => LokiTagsAreOwned(k);
      case LocalVolumes => LocalpvIsOwned(k);
      case ClientList => ClientsAreOwned(k);
      case PromtailSettings => PromtailIsOwned(k);
      case Renames => RenamesAreOwned(k);
    }
  }

  lemma {:induction false} OtherPathIsOwned(b: Block, ps: seq<Path>, k: nat)
    requires !OnlyBeforeTwoSix(b) && ps == PathsOf(b) && k < |ps|
    ensures ps[k].Under? && Owner(ps[k]) == b
  {
    match b {
      case Tags => TagsAreOwned(k);
      case RepositoryTags => RepoTagsAreOwned(k);
      case CrdToggles => TogglesAreOwned(k);
      case _ => DefaultsAreOwned();
    }
  }

  lemma {:induction false} PathIsOwned(b: Block, ps: seq<Path>, k: nat)
    requires !b.Removals? && ps == PathsOf(b) && k < |ps|
    ensures ps[k].Under? && Owner(ps[k]) == b
  {
    if OnlyBeforeTwoSix(b) {
      TwoSixPathIsOwned(b, ps, k);
    } else {
      OtherPathIsOwned(b, ps, k);
    }
  }

  /** Only the removals touch paths that a later block owns. */
  lemma {:induction false} OwnersAreLast(b: Block, c: Block, q: Path)
    requires Owns(b, q) && q in PathsOf(c) && b != c
    ensures c == Removals && (b == ClientList || b == PromtailSettings)
  {
    var k :| 0 <= k < |PathsOf(c)| && PathsOf(c)[k] == q;
    if c == Removals {
      RemovedAreOwned(k);
    } else {
      PathIsOwned(c, PathsOf(c), k);
    }
  }

  lemma {:induction false} PlacesAreDistinct(h: nat)
    requires h < BLOCKS
    ensures Place(BlockAt(h)) == h
  {
  }

  /** No block after its owner touches a path; none before does either, but for two of the removed ones. */
  lemma {:induction false} OthersLeaveToOwner(b: Block, c: Block, q: Path)
    requires Owns(b, q) && b != c && (Place(c) > Place(b) || (b != ClientList && b != PromtailSettings))
    ensures q !in PathsOf(c)
  {
    if q in PathsOf(c) {
      OwnersAreLast(b, c, q);
    }
  }

  /** The owner of a path decides what it ends as, and finds the merged value there unless it was removed before. */
  lemma {:induction false} OwnerDecides(i: Inputs, v: Yaml, b: Block, q: Path) returns (r: Edited)
    requires MigratesTo(i, v) && Owns(b, q)
    ensures r.Ok? && Continue(r, EditsOf(i, b)).Ok?
    ensures Get(v, q) == Get(Continue(r, EditsOf(i, b)).value, q)
    ensures b != ClientList && b != PromtailSettings ==> Get(r.value, q) == Get(Merged(i), q)
  {
    var g := Place(b);
    forall h | g < h < BLOCKS ensures q !in PathsOf(BlockAt(h)) {
      PlacesAreDistinct(h);
      OthersLeaveToOwner(b, BlockAt(h), q);
    }
    LastBlockDecides(i, v, g, q);
    BlockIs(i, g, b);
    r := After(i, g);
    if b != ClientList && b != PromtailSettings {
      forall h | 0 <= h < g ensures q !in PathsOf(BlockAt(h)) {
        PlacesAreDistinct(h);
        OthersLeaveToOwner(b, BlockAt(h), q);
      }
      FirstBlockFindsMerged(i, g, q);
    }
  }

  /** An edit of the block that owns its path, with no other edit at that path to follow. */
  lemma {:induction false} EditSettles(i: Inputs, v: Yaml, b: Block, es: seq<Edit>, k: nat)
    requires MigratesTo(i, v) && es == EditsOf(i, b) && k < |es| && Owns(b, es[k].path)
    requires forall j :: k < j < |es| ==> es[j].path != es[k].path
    ensures es[k].Assign? ==> Get(v, es[k].path) == Some(es[k].value)
    ensures es[k].Remove? ==> Get(v, es[k].path) == None
  {
    var r := OwnerDecides(i, v, b, es[k].path);
    BlockTouches(i, b);
    EditLands(r, es, k, b);
  }

  /** A path of a block that makes no edit at it keeps its merged value. */
  lemma {:induction false} PathIsKept(i: Inputs, v: Yaml, b: Block, es: seq<Edit>, q: Path)
    requires MigratesTo(i, v) && es == EditsOf(i, b) && Owns(b, q) && b != ClientList && b != PromtailSettings
    requires forall j :: 0 <= j < |es| ==> es[j].path != q
    ensures Get(v, q) == Get(Merged(i), q)
  {
    var r := OwnerDecides(i, v, b, q);
    BlockTouches(i, b);
    BlockIsWellKeyed(b);
    forall j | 0 <= j < |es| ensures Diverge(es[j].path, q) {
      assert es[j].path in PathsOf(b) && q in PathsOf(b);
      WellKeyedPathsAreApart(es[j].path, q);
    }
    ContinueSpares(r, es, q);
  }

  // ---------------------------------------------------------------- blocks with one edit for each of their paths

  predicate OneEditPerPath(es: seq<Edit>, ps: seq<Path>) {
    |es| == |ps| && forall j :: 0 <= j < |es| ==> es[j].path == ps[j]
  }

  predicate Distinct(ps: seq<Path>) {
    forall j, k :: 0 <= j < k < |ps| ==> ps[j] != ps[k]
  }

  lemma {:induction false} PathOfBlock(b: Block, ps: seq<Path>, k: nat)
    requires ps == PathsOf(b) && k < |ps| && !b.Removals?
    ensures Owns(b, ps[k])
  {
    PathIsOwned(b, ps, k);
  }

  lemma {:induction false} EditOfPathSettles(i: Inputs, v: Yaml, b: Block, es: seq<Edit>, ps: seq<Path>, k: nat)
    requires MigratesTo(i, v) && es == EditsOf(i, b) && ps == PathsOf(b) && !b.Removals?
    requires OneEditPerPath(es, ps) && Distinct(ps) && k < |ps|
    ensures es[k].Assign? ==> Get(v, ps[k]) == Some(es[k].value)
    ensures es[k].Remove? ==> Get(v, ps[k]) == None
  {
    PathOfBlock(b, ps, k);
    assert es[k].path == ps[k];
    EditSettles(i, v, b, es, k);
  }

  /** A block that does nothing leaves the merged values. */
  lemma {:induction false} IdleBlockKeeps(i: Inputs, v: Yaml, b: Block, ps: seq<Path>, k: nat)
    requires MigratesTo(i, v) && EditsOf(i, b) == [] && ps == PathsOf(b) && k < |ps|
    requires !b.Removals? && b != ClientList && b != PromtailSettings
    ensures Get(v, ps[k]) == Get(Merged(i), ps[k])
  {
    PathOfBlock(b, ps, k);
    PathIsKept(i, v, b, [], ps[k]);
  }
}
