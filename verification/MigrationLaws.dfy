/** What the migrated values hold at the edited paths, for all versions and all values trees. */
module MigrationLaws {
  import opened Wrappers
  import opened Yaml
  import opened Migration
  import opened MigrationPaths
  import S = Semver

  /** The target chart's own value, as it is written. */
  function TargetValue(i: Inputs, p: Path): Option<Yaml> {
    Some(Literal(Text(i.target, p)))
  }

  /** `y` holds a string at `p` that does not read as a boolean, null or a 64-bit integer. */
  predicate Verbatim(y: Yaml, p: Path) {
    Get(y, p).Some? && Get(y, p).value.Str? && Literal(Get(y, p).value.s).Str?
  }

  /**
    When what is written for a value is that very value. A string that reads as another
    scalar changes its type, and for a missing value the empty string is written.
   */
  lemma {:induction false} WrittenIsOwnIff(y: Yaml, p: Path)
    ensures Some(Literal(Text(y, p))) == Get(y, p) <==> Verbatim(y, p)
  {
    LiteralOfString(Text(y, p));
    LiteralOfString("");
  }

  lemma {:induction false} LiteralOfString(s: string)
    ensures Literal(s).Str? ==> Literal(s) == Str(s)
    ensures Literal("") == Str("")
  {
    assert |"true"| == 4 && |"false"| == 5 && |"null"| == 4;
  }

  /** `p` ends as the target chart has it, exactly when that can be written as it is. */
  predicate EndsAsTarget(i: Inputs, v: Yaml, p: Path) {
    && Get(v, p) == TargetValue(i, p)
    && (Get(v, p) == Get(i.target, p) <==> Verbatim(i.target, p))
  }

  /** `es` takes each of the paths `ps` from the target. */
  predicate TakesFromTarget(i: Inputs, es: seq<Edit>, ps: seq<Path>) {
    |es| == |ps| && forall k :: 0 <= k < |es| ==> es[k] == FromTarget(i, ps[k])
  }

  /** A block that takes its paths from the target, or does nothing. */
  lemma {:induction false} BlockFromTarget(i: Inputs, v: Yaml, b: Block, ps: seq<Path>, moves: bool, k: nat)
    requires MigratesTo(i, v) && ps == PathsOf(b) && Distinct(ps) && k < |ps|
    requires !b.Removals? && b != ClientList && b != PromtailSettings
    requires if moves then TakesFromTarget(i, EditsOf(i, b), ps) else EditsOf(i, b) == []
    ensures if moves then EndsAsTarget(i, v, ps[k]) else Get(v, ps[k]) == Get(Merged(i), ps[k])
  {
    WrittenIsOwnIff(i.target, ps[k]);
    if moves {
      EditOfPathSettles(i, v, b, EditsOf(i, b), ps, k);
    } else {
      IdleBlockKeeps(i, v, b, ps, k);
    }
  }

  /** The sources that the laws below speak of, in plain terms: 2.0.0-rc.1 to the last pre-release of 2.6.0. */
  lemma {:induction false} BeforeTwoSixExplained(i: Inputs)
    ensures var v := i.sourceVersion;
            BeforeTwoSix(i) <==>
            && v.major == 2 && (v.minor < 6 || (v.minor == 6 && v.patch == 0 && v.pre != []))
            && (v.minor == 0 && v.patch == 0 && v.pre != [] ==>
                  S.ComparePre(v.pre, [S.Alphanumeric("rc"), S.Numeric(1)]) != S.Less)
  {
    S.WindowExplained(i.sourceVersion, 6);
  }

  // ---------------------------------------------------------------- tags

  lemma {:induction false} TagsAreDistinct()
    ensures Distinct(TagPaths())
  {
  }

  lemma {:induction false} TagBlock(i: Inputs)
    ensures TakesFromTarget(i, EditsOf(i, Tags), TagPaths())
  {
  }

  /** Whatever the versions, the image tag and the six CSI sidecar tags end as the target chart has them. */
  lemma {:induction false} TagsComeFromTarget(i: Inputs, v: Yaml, k: nat)
    requires MigratesTo(i, v) && k < |TagPaths()|
    ensures Get(v, TagPaths()[k]) == TargetValue(i, TagPaths()[k])
    ensures Get(v, TagPaths()[k]) == Get(i.target, TagPaths()[k]) <==> Verbatim(i.target, TagPaths()[k])
  {
    TagsAreDistinct();
    TagBlock(i);
    BlockFromTarget(i, v, Tags, TagPaths(), true, k);
  }

  lemma {:induction false} RepoTagsAreDistinct()
    ensures Distinct(RepoTagPaths())
  {
  }

  lemma {:induction false} RepoTagBlock(i: Inputs)
    ensures if S.AtLeast(i.targetVersion, S.TWO_DOT_ONE) then TakesFromTarget(i, EditsOf(i, RepositoryTags), RepoTagPaths())
            else EditsOf(i, RepositoryTags) == []
  {
  }

  /** The repository tags come from the target exactly when it is at least 2.1.0. */
  lemma {:induction false} RepoTagsMigrate(i: Inputs, v: Yaml, k: nat)
    requires MigratesTo(i, v) && k < |RepoTagPaths()|
    ensures if S.AtLeast(i.targetVersion, S.Version(2, 1, 0, [])) then EndsAsTarget(i, v, RepoTagPaths()[k])
            else Get(v, RepoTagPaths()[k]) == Get(Merged(i), RepoTagPaths()[k])
  {
    RepoTagsAreDistinct();
    RepoTagBlock(i);
    BlockFromTarget(i, v, RepositoryTags, RepoTagPaths(), S.AtLeast(i.targetVersion, S.TWO_DOT_ONE), k);
  }

  lemma {:induction false} LokiTagsAreDistinct()
    ensures Distinct(LokiStackTagPaths())
  {
  }

  lemma {:induction false} LokiTagBlock(i: Inputs)
    ensures if BeforeTwoSix(i) then TakesFromTarget(i, EditsOf(i, LokiTags), LokiStackTagPaths())
            else EditsOf(i, LokiTags) == []
  {
  }

  /** The ten image tags of the logging stack come from the target exactly for sources before 2.6.0. */
  lemma {:induction false} LokiStackTagsMigrate(i: Inputs, v: Yaml, k: nat)
    requires MigratesTo(i, v) && k < |LokiStackTagPaths()|
    ensures if BeforeTwoSix(i) then EndsAsTarget(i, v, LokiStackTagPaths()[k])
            else Get(v, LokiStackTagPaths()[k]) == Get(Merged(i), LokiStackTagPaths()[k])
  {
    LokiTagsAreDistinct();
    LokiTagBlock(i);
    BlockFromTarget(i, v, LokiTags, LokiStackTagPaths(), BeforeTwoSix(i), k);
  }

  // ---------------------------------------------------------------- three-way defaults

  /** What a value that the source sets is before the edits. */
  lemma {:induction false} SourceValueIsMerged(i: Inputs, p: Path)
    requires Get(i.source, p).Some? && !Get(i.source, p).value.Map?
    ensures Get(Merged(i), p) == Get(i.source, p)
  {
    MergeLookup(i.target, i.source, p);
  }

  /** The source has `prior` at `p`, and the target has something else there, or nothing. */
  predicate LeavesBehind(i: Inputs, p: Path, prior: string) {
    Get(i.source, p) == Some(Str(prior)) && Get(i.target, p) != Some(Str(prior))
  }

  lemma {:induction false} MovedIffLeftBehind(i: Inputs, p: Path, prior: string)
    requires prior != ""
    ensures DefaultMoved(i, p, prior) <==> LeavesBehind(i, p, prior)
  {
  }

  /** `p` moves to the target's value or stays: as the source has it, or as merged if the source does not set it. */
  predicate MovesOrStays(i: Inputs, v: Yaml, p: Path, moves: bool) {
    if moves then EndsAsTarget(i, v, p)
    else
      && Get(v, p) == Get(Merged(i), p)
      && (Get(i.source, p).Some? && !Get(i.source, p).value.Map? ==> Get(v, p) == Get(i.source, p))
  }

  lemma {:induction false} StaysAsSource(i: Inputs, v: Yaml, p: Path)
    requires Get(v, p) == Get(Merged(i), p)
    ensures MovesOrStays(i, v, p, false)
  {
    if Get(i.source, p).Some? && !Get(i.source, p).value.Map? {
      SourceValueIsMerged(i, p);
    }
  }

  lemma {:induction false} DefaultEdits(i: Inputs, es: seq<Edit>, p: Path, prior: string, moves: bool)
    requires es == if moves then [FromTarget(i, p)] else []
    ensures if moves then TakesFromTarget(i, es, [p]) else es == []
  {
  }

  /** A block that may move one default. */
  lemma {:induction false} DefaultMigrates(i: Inputs, v: Yaml, b: Block, p: Path, prior: string, window: bool)
    requires MigratesTo(i, v) && PathsOf(b) == [p] && EditsOf(i, b) == if window then MoveDefault(i, p, prior) else []
    requires !b.Removals? && b != ClientList && b != PromtailSettings && prior != ""
    ensures MovesOrStays(i, v, p, window && LeavesBehind(i, p, prior))
  {
    MovedIffLeftBehind(i, p, prior);
    var moves := window && LeavesBehind(i, p, prior);
    DefaultEdits(i, EditsOf(i, b), p, prior, moves);
    BlockFromTarget(i, v, b, [p], moves, 0);
    if !moves {
      StaysAsSource(i, v, p);
    }
  }

  /**
    `.io_engine.logLevel`: the target's value if the source comes from the window below 2.1.0
    and still has the old default, which the target no longer has; the user's own otherwise.
   */
  lemma {:induction false} LogLevelMigrates(i: Inputs, v: Yaml)
    requires MigratesTo(i, v)
    ensures var p := P2(IoEngine, LogLevel);
            var prior := Some(Str("info,io_engine=info"));
            MovesOrStays(i, v, p,
              S.FromTwoDotOUpTo(i.sourceVersion, 1) && Get(i.source, p) == prior && Get(i.target, p) != prior)
  {
    DefaultMigrates(i, v, LogLevels, LogLevelPath(), "info,io_engine=info", S.FromTwoDotOUpTo(i.sourceVersion, 1));
  }

  /** Promtail's scrape configuration, likewise, for sources below 2.5.0. */
  lemma {:induction false} ScrapeConfigsMigrate(i: Inputs, v: Yaml)
    requires MigratesTo(i, v)
    ensures var p := P5(LokiStack, Promtail, Config, Snippets, ScrapeConfigs);
            var prior := Some(Str(i.oldScrapeConfigs));
            MovesOrStays(i, v, p,
              S.FromTwoDotOUpTo(i.sourceVersion, 5) && Get(i.source, p) == prior && Get(i.target, p) != prior)
  {
    DefaultMigrates(i, v, Scraping, ScrapeConfigsPath(), i.oldScrapeConfigs, S.FromTwoDotOUpTo(i.sourceVersion, 5));
  }

  /** `.csi.node.nvme.io_timeout`, likewise, for sources below 2.5.0. */
  lemma {:induction false} IoTimeoutMigrates(i: Inputs, v: Yaml)
    requires MigratesTo(i, v)
    ensures var p := P4(Csi, Node, Nvme, IoTimeout);
            var prior := Some(Str("30"));
            MovesOrStays(i, v, p,
              S.FromTwoDotOUpTo(i.sourceVersion, 5) && Get(i.source, p) == prior && Get(i.target, p) != prior)
  {
    DefaultMigrates(i, v, Timeouts, IoTimeoutPath(), "30", S.FromTwoDotOUpTo(i.sourceVersion, 5));
  }

  /** A block of one assignment, or none, at its only path. */
  lemma {:induction false} OneAssignment(i: Inputs, v: Yaml, b: Block, p: Path, value: Yaml, moves: bool)
    requires MigratesTo(i, v) && PathsOf(b) == [p] && EditsOf(i, b) == if moves then [Assign(p, value)] else []
    requires !b.Removals? && b != ClientList && b != PromtailSettings
    ensures Get(v, p) == if moves then Some(value) else Get(Merged(i), p)
  {
    if moves {
      EditOfPathSettles(i, v, b, EditsOf(i, b), [p], 0);
    } else {
      IdleBlockKeeps(i, v, b, [p], 0);
    }
  }

  /** Eventing is on in `y`. */
  predicate HasEventing(y: Yaml) {
    Get(y, P2(Eventing, Enabled)) == Some(Bool(true))
  }

  predicate EventingMoves(i: Inputs) {
    && S.AtLeast(i.sourceVersion, S.Version(2, 3, 0, [])) && S.Below(i.sourceVersion, S.Version(2, 4, 0, []))
    && HasEventing(i.source) != HasEventing(i.target)
  }

  /** For sources from 2.3.0 up to 2.4.0 eventing ends as the target has it, unless both agree anyway. */
  lemma {:induction false} EventingMigrates(i: Inputs, v: Yaml)
    requires MigratesTo(i, v)
    ensures Get(v, P2(Eventing, Enabled)) ==
            if EventingMoves(i) then Some(Bool(HasEventing(i.target))) else Get(Merged(i), P2(Eventing, Enabled))
  {
    OneAssignment(i, v, Events, EventingPath(), Bool(HasEventing(i.target)), EventingMoves(i));
  }

  lemma {:induction false} LocalpvIsDistinct()
    ensures Distinct(LocalpvPaths())
  {
  }

  /** The source is from before 2.6.0 and has release 3.4.0 of the provisioner, which the target has not. */
  predicate LocalpvMoves(i: Inputs) {
    var p := P3(LocalpvProvisioner, Release, Version);
    BeforeTwoSix(i) && Get(i.source, p) == Some(Str("3.4.0")) && Get(i.target, p) != Some(Str("3.4.0"))
  }

  lemma {:induction false} LocalpvBlock(i: Inputs)
    ensures if LocalpvMoves(i) then TakesFromTarget(i, EditsOf(i, LocalVolumes), LocalpvPaths())
            else EditsOf(i, LocalVolumes) == []
  {
    MovedIffLeftBehind(i, LocalpvVersionPath(), "3.4.0");
  }

  /** The release and the two image tags of the local volume provisioner move together, or not at all. */
  lemma {:induction false} LocalpvMigrates(i: Inputs, v: Yaml, k: nat)
    requires MigratesTo(i, v) && k < |LocalpvPaths()|
    ensures if LocalpvMoves(i) then EndsAsTarget(i, v, LocalpvPaths()[k])
            else Get(v, LocalpvPaths()[k]) == Get(Merged(i), LocalpvPaths()[k])
  {
    LocalpvIsDistinct();
    LocalpvBlock(i);
    BlockFromTarget(i, v, LocalVolumes, LocalpvPaths(), LocalpvMoves(i), k);
  }

  // ---------------------------------------------------------------- renamed and removed keys

  lemma {:induction false} RenamesAreDistinct()
    ensures Distinct(RenamePaths())
  {
  }

  lemma {:induction false} RenameBlock(i: Inputs)
    requires BeforeTwoSix(i)
    ensures EditsOf(i, Renames) == RenameEdits(i) && OneEditPerPath(RenameEdits(i), RenamePaths())
  {
  }

  lemma {:induction false} RenameSettles(i: Inputs, v: Yaml, es: seq<Edit>, k: nat)
    requires MigratesTo(i, v) && BeforeTwoSix(i) && es == RenameEdits(i) && k < |es|
    ensures es[k].Assign? ==> Get(v, es[k].path) == Some(es[k].value)
    ensures es[k].Remove? ==> Get(v, es[k].path) == None
  {
    RenamesAreDistinct();
    RenameBlock(i);
    EditOfPathSettles(i, v, Renames, es, RenamePaths(), k);
  }

  /** The new key of a renamed one holds the source's value of the old key, exactly when that can be written as it is. */
  predicate MovesTo(i: Inputs, v: Yaml, from: Path, to: Path) {
    && Get(v, from) == None
    && Get(v, to) == Some(Literal(Text(i.source, from)))
    && (Get(v, to) == Get(i.source, from) <==> Verbatim(i.source, from))
  }

  /** Old keys are gone and what the source had there is written at the new ones, in place of anything that was there. */
  lemma {:induction false} RenamedKeysMove(i: Inputs, v: Yaml)
    requires MigratesTo(i, v) && BeforeTwoSix(i)
    ensures MovesTo(i, v, P2(Base, LogSilenceLevel), P3(Base, Logging, SilenceLevel))
    ensures MovesTo(i, v, P3(Csi, Node, PluginMounthPath), P3(Csi, Node, PluginMountPath))
  {
    var es := RenameEdits(i);
    RenameSettles(i, v, es, 0);
    RenameSettles(i, v, es, 1);
    RenameSettles(i, v, es, 2);
    RenameSettles(i, v, es, 3);
    WrittenIsOwnIff(i.source, LogSilenceLevelPath());
    WrittenIsOwnIff(i.source, PluginMounthPathPath());
  }

  /** The tag of the jaeger operator is written again as the source has it, and empty if it has none. */
  lemma {:induction false} JaegerTagIsRewritten(i: Inputs, v: Yaml)
    requires MigratesTo(i, v) && BeforeTwoSix(i)
    ensures var p := P3(JaegerOperator, Image, Tag);
            && Get(v, p) == Some(Literal(Text(i.source, p)))
            && (Get(v, p) == Get(i.source, p) <==> Verbatim(i.source, p))
  {
    RenameSettles(i, v, RenameEdits(i), 4);
    WrittenIsOwnIff(i.source, P3(JaegerOperator, Image, Tag));
  }

  lemma {:induction false} KvstoreIsOwned()
    ensures Owns(Removals, KvstorePath())
  {
    assert RemovedPaths()[0] == KvstorePath();
    RemovedAreOwned(0);
  }

  lemma {:induction false} RemovalBlock(i: Inputs)
    requires BeforeTwoSix(i)
    ensures EditsOf(i, Removals) == RemovalEdits() && RemovalEdits()[0] == Remove(KvstorePath())
    ensures forall j :: 0 < j < |RemovalEdits()| ==> RemovalEdits()[j].path != KvstorePath()
  {
  }

  lemma {:induction false} KvstoreIsGone(i: Inputs, v: Yaml)
    requires MigratesTo(i, v) && BeforeTwoSix(i)
    ensures Get(v, KvstorePath()) == None
  {
    KvstoreIsOwned();
    RemovalBlock(i);
    EditSettles(i, v, Removals, EditsOf(i, Removals), 0);
  }

  lemma {:induction false} ClientKeysAreOwned()
    ensures Owns(ClientList, ClientsPath()) && Owns(ClientList, ExtraClientsPath()) && Owns(ClientList, LokiAddressPath())
  {
    PathOfBlock(ClientList, ClientPaths(), 0);
    PathOfBlock(ClientList, ClientPaths(), 1);
    PathOfBlock(ClientList, ClientPaths(), 2);
  }

  lemma {:induction false} ClientBlockEnds(i: Inputs)
    requires BeforeTwoSix(i)
    ensures EditsOf(i, ClientList) == ClientEdits(i)
    ensures var es := ClientEdits(i);
            |es| >= 4 && es[|es| - 1] == Remove(LokiAddressPath()) && es[|es| - 2] == Remove(ExtraClientsPath())
    ensures ExtraClientsPath() != LokiAddressPath()
  {
  }

  lemma {:induction false} ClientKeysAreGone(i: Inputs, v: Yaml, es: seq<Edit>)
    requires MigratesTo(i, v) && BeforeTwoSix(i) && es == EditsOf(i, ClientList)
    ensures Get(v, LokiAddressPath()) == None && Get(v, ExtraClientsPath()) == None
  {
    ClientKeysAreOwned();
    ClientBlockEnds(i);
    EditSettles(i, v, ClientList, es, |es| - 1);
    EditSettles(i, v, ClientList, es, |es| - 2);
  }

  /** The deprecated promtail and loki keys are gone. */
  lemma {:induction false} DeprecatedKeysAreGone(i: Inputs, v: Yaml)
    requires MigratesTo(i, v) && BeforeTwoSix(i)
    ensures Get(v, Under(LokiStack, Under(Loki, P5(Config, Ingester, Lifecycler, Ring, Kvstore)))) == None
    ensures Get(v, P5(LokiStack, Promtail, Config, Snippets, ExtraClientConfigs)) == None
    ensures Get(v, P4(LokiStack, Promtail, Config, LokiAddress)) == None
  {
    KvstoreIsGone(i, v);
    ClientKeysAreGone(i, v, EditsOf(i, ClientList));
  }

  // ---------------------------------------------------------------- clients

  /** The client that a source below 2.6.0 ends up with. */
  function MigratedClient(i: Inputs): Edited {
    if HasExtraClient(i) && i.extraClient.Some? then Plus(ClientOf(i), i.extraClient.value) else Ok(ClientOf(i))
  }

  function ExtraClientEdit(i: Inputs, p: Path): seq<Edit> {
    if HasExtraClient(i) && i.extraClient.Some? then [AddFieldsToFirst(p, i.extraClient.value)] else []
  }

  /** Emptying a list at any path and appending to it. */
  lemma {:induction false} OneItem(p: Path, item: Yaml, y: Yaml)
    requires p.Under?
    ensures ApplyAll([Remove(p), AppendItem(p, item)], y).Ok? <==> Open(y, p)
    ensures Open(y, p) ==> Get(ApplyAll([Remove(p), AppendItem(p, item)], y).value, p) == Some(Arr([item]))
  {
    var es := [Remove(p), AppendItem(p, item)];
    var y1 := Without(y, p);
    assert es[1..] == [AppendItem(p, item)] && es[1..][1..] == [];
    assert ApplyAll(es, y) == ApplyAll(es[1..], y1) == Apply(es[1], y1);
    RemovalErases(y, p);
    RemovalKeepsOpenness(y, p);
    ChangeLands(es[1], y1, p);
  }

  lemma {:induction false} FieldsAdded(p: Path, item: Yaml, extra: Yaml, y: Yaml)
    requires Get(y, p) == Some(Arr([item]))
    ensures ApplyAll([AddFieldsToFirst(p, extra)], y).Ok? <==> Plus(item, extra).Ok?
    ensures Plus(item, extra).Ok? ==>
              Get(ApplyAll([AddFieldsToFirst(p, extra)], y).value, p) == Some(Arr([Plus(item, extra).value]))
  {
    var es := [AddFieldsToFirst(p, extra)];
    assert es[1..] == [];
    assert ApplyAll(es, y) == Apply(es[0], y);
    PresentIsOpen(y, p);
    ChangeLands(es[0], y, p);
    if Plus(item, extra).Ok? {
      assert [item][0 := Plus(item, extra).value] == [Plus(item, extra).value];
    }
  }

  lemma {:induction false} ExtraClientAdded(i: Inputs, p: Path, y: Yaml)
    requires Get(y, p) == Some(Arr([ClientOf(i)]))
    ensures ApplyAll(ExtraClientEdit(i, p), y).Ok? <==> MigratedClient(i).Ok?
    ensures MigratedClient(i).Ok? ==>
              Get(ApplyAll(ExtraClientEdit(i, p), y).value, p) == Some(Arr([MigratedClient(i).value]))
  {
    if HasExtraClient(i) && i.extraClient.Some? {
      FieldsAdded(p, ClientOf(i), i.extraClient.value, y);
    }
  }

  /** What the edits that convert the clients make of a list of clients, whatever was in it. */
  lemma {:induction false} ClientListAfterEdits(i: Inputs, p: Path, y: Yaml)
    requires p.Under?
    ensures var es := [Remove(p), AppendItem(p, ClientOf(i))] + ExtraClientEdit(i, p);
            && (ApplyAll(es, y).Ok? <==> Open(y, p) && MigratedClient(i).Ok?)
            && (ApplyAll(es, y).Ok? ==> Get(ApplyAll(es, y).value, p) == Some(Arr([MigratedClient(i).value])))
  {
    var first := [Remove(p), AppendItem(p, ClientOf(i))];
    EditsSplit(first, ExtraClientEdit(i, p), y);
    OneItem(p, ClientOf(i), y);
    if Open(y, p) {
      ExtraClientAdded(i, p, ApplyAll(first, y).value);
    }
  }

  lemma {:induction false} ClientEditParts(i: Inputs)
    ensures ClientEdits(i) == [Remove(ClientsPath()), AppendItem(ClientsPath(), ClientOf(i))]
                              + ExtraClientEdit(i, ClientsPath()) + [Remove(ExtraClientsPath()), Remove(LokiAddressPath())]
  {
  }

  lemma {:induction false} RemovalsSpare(p: Path, a: Path, b: Path)
    requires WellKeyed(p) && WellKeyed(a) && WellKeyed(b) && a != p && b != p
    ensures Spares([Remove(a), Remove(b)], p)
  {
    WellKeyedPathsAreApart(a, p);
    WellKeyedPathsAreApart(b, p);
  }

  lemma {:induction false} LastClientEditsSpare()
    ensures Spares([Remove(ExtraClientsPath()), Remove(LokiAddressPath())], ClientsPath())
  {
    ClientsAreWellKeyed();
    var ps := ClientPaths();
    assert WellKeyed(ps[0]) && WellKeyed(ps[1]) && WellKeyed(ps[2]);
    RemovalsSpare(ps[0], ps[1], ps[2]);
  }

  lemma {:induction false} ClientListKept(i: Inputs, p: Path, last: seq<Edit>, y: Yaml)
    requires p.Under? && Spares(last, p)
    requires ApplyAll([Remove(p), AppendItem(p, ClientOf(i))] + ExtraClientEdit(i, p) + last, y).Ok?
    ensures MigratedClient(i).Ok?
    ensures Get(ApplyAll([Remove(p), AppendItem(p, ClientOf(i))] + ExtraClientEdit(i, p) + last, y).value, p)
            == Some(Arr([MigratedClient(i).value]))
  {
    var first := [Remove(p), AppendItem(p, ClientOf(i))] + ExtraClientEdit(i, p);
    EditsSplit(first, last, y);
    ClientListAfterEdits(i, p, y);
    EditsSpare(last, ApplyAll(first, y).value, p);
  }

  lemma {:induction false} ClientListEndsAs(i: Inputs, v: Yaml)
    requires MigratesTo(i, v) && BeforeTwoSix(i)
    ensures MigratedClient(i).Ok? && !BadExtraClient(i)
    ensures Get(v, ClientsPath()) == Some(Arr([MigratedClient(i).value]))
  {
    ClientKeysAreOwned();
    var r := OwnerDecides(i, v, ClientList, ClientsPath());
    ClientBlockEnds(i);
    ClientEditParts(i);
    LastClientEditsSpare();
    ClientListKept(i, ClientsPath(), [Remove(ExtraClientsPath()), Remove(LokiAddressPath())], r.value);
    MigratesToIff(i, v);
  }

  /** The string that `y` has at `p`, or the empty one. */
  predicate Reads(y: Yaml, p: Path, s: string) {
    if Get(y, p).Some? && Get(y, p).value.Str? then Get(y, p) == Some(Str(s)) else s == ""
  }

  /** A client with the fields `extra`, and the address `url` unless `extra` has another; it has no further field. */
  predicate IsClient(c: map<Key, Yaml>, url: string, extra: map<Key, Yaml>) {
    && c.Keys == extra.Keys + {Url}
    && (forall k :: k in extra ==> c[k] == extra[k])
    && (Url !in extra ==> c[Url] == Str(url))
  }

  lemma {:induction false} MigratedClientIsClient(i: Inputs, url: string, extra: map<Key, Yaml>)
    requires Reads(i.source, LokiAddressPath(), url) && MigratedClient(i).Ok?
    requires if HasExtraClient(i) then i.extraClient == Some(Map(extra)) else extra == map[]
    ensures MigratedClient(i).value.Map? && IsClient(MigratedClient(i).value.fields, url, extra)
  {
    if HasExtraClient(i) {
      OverlayHolds(ClientOf(i), i.extraClient.value);
    }
  }

  /**
    Promtail ends with one client: the source's address, overlaid with the fields of its extra
    configuration, if it has one. That configuration has been read as an object, or else the
    migration would not have completed.
   */
  lemma {:induction false} ClientsAreConverted(i: Inputs, v: Yaml) returns (c: map<Key, Yaml>, url: string, extra: map<Key, Yaml>)
    requires MigratesTo(i, v) && BeforeTwoSix(i)
    ensures Get(v, P4(LokiStack, Promtail, Config, Clients)) == Some(Arr([Map(c)])) && IsClient(c, url, extra)
    ensures Reads(i.source, P4(LokiStack, Promtail, Config, LokiAddress), url)
    ensures if Reads(i.source, P5(LokiStack, Promtail, Config, Snippets, ExtraClientConfigs), "") then
              extra == map[] && c == map[Url := Str(url)]
            else i.extraClient == Some(Map(extra))
  {
    ClientListEndsAs(i, v);
    OverlayHolds(ClientOf(i), if i.extraClient.Some? then i.extraClient.value else Null);
    url := Text(i.source, LokiAddressPath());
    extra := if HasExtraClient(i) then i.extraClient.value.fields else map[];
    MigratedClientIsClient(i, url, extra);
    c := MigratedClient(i).value.fields;
  }

  // ---------------------------------------------------------------- promtail settings and toggles

  lemma {:induction false} PromtailBlock(i: Inputs)
    requires BeforeTwoSix(i)
    ensures EditsOf(i, PromtailSettings) == PromtailEdits(i)
    ensures var es := PromtailEdits(i);
            && |es| >= 2 && es[0] == FromTarget(i, PromtailFilePath()) && es[|es| - 1] == FromTarget(i, ReadinessPath())
            && forall j :: 1 <= j < |es| ==> es[j].path != PromtailFilePath()
  {
  }

  lemma {:induction false} PromtailSettingsAreOwned()
    ensures Owns(PromtailSettings, PromtailFilePath()) && Owns(PromtailSettings, ReadinessPath())
  {
    PathOfBlock(PromtailSettings, PromtailPaths(), 0);
    PathOfBlock(PromtailSettings, PromtailPaths(), 2);
  }

  /** Promtail's configuration file and readiness probe come from the target for sources before 2.6.0. */
  lemma {:induction false} PromtailSettingsComeFromTarget(i: Inputs, v: Yaml)
    requires MigratesTo(i, v) && BeforeTwoSix(i)
    ensures EndsAsTarget(i, v, P4(LokiStack, Promtail, Config, File))
    ensures EndsAsTarget(i, v, P5(LokiStack, Promtail, ReadinessProbe, HttpGet, HttpPath))
  {
    var es := EditsOf(i, PromtailSettings);
    PromtailSettingsAreOwned();
    PromtailBlock(i);
    EditSettles(i, v, PromtailSettings, es, 0);
    EditSettles(i, v, PromtailSettings, es, |es| - 1);
    WrittenIsOwnIff(i.target, PromtailFilePath());
    WrittenIsOwnIff(i.target, ReadinessPath());
  }

  function Toggle(present: bool, p: Path): seq<Edit> {
    if present then [Assign(p, Bool(false))] else []
  }

  lemma {:induction false} TogglesBlock(i: Inputs)
    ensures EditsOf(i, CrdToggles) ==
            Toggle(HasSnapshotCrds(i.crds), SnapshotTogglePath()) + Toggle(HasJaegerCrds(i.crds), JaegerTogglePath())
  {
  }

  lemma {:induction false} FirstToggle(i: Inputs, v: Yaml, p: Path, q: Path, a: bool, b: bool)
    requires MigratesTo(i, v) && p != q && Owns(CrdToggles, p) && EditsOf(i, CrdToggles) == Toggle(a, p) + Toggle(b, q)
    ensures Get(v, p) == if a then Some(Bool(false)) else Get(Merged(i), p)
  {
    if a {
      EditSettles(i, v, CrdToggles, EditsOf(i, CrdToggles), 0);
    } else {
      PathIsKept(i, v, CrdToggles, EditsOf(i, CrdToggles), p);
    }
  }

  lemma {:induction false} SecondToggle(i: Inputs, v: Yaml, p: Path, q: Path, a: bool, b: bool)
    requires MigratesTo(i, v) && p != q && Owns(CrdToggles, q) && EditsOf(i, CrdToggles) == Toggle(a, p) + Toggle(b, q)
    ensures Get(v, q) == if b then Some(Bool(false)) else Get(Merged(i), q)
  {
    if b {
      EditSettles(i, v, CrdToggles, EditsOf(i, CrdToggles), |EditsOf(i, CrdToggles)| - 1);
    } else {
      PathIsKept(i, v, CrdToggles, EditsOf(i, CrdToggles), q);
    }
  }

  lemma {:induction false} TogglesOwned()
    ensures Owns(CrdToggles, SnapshotTogglePath()) && Owns(CrdToggles, JaegerTogglePath())
  {
    PathOfBlock(CrdToggles, CrdPaths(), 0);
    PathOfBlock(CrdToggles, CrdPaths(), 1);
  }

  /** At least one of `names` is among the CRDs of the cluster. */
  ghost predicate AnyPresent(crds: seq<string>, names: set<string>) {
    exists k :: 0 <= k < |crds| && crds[k] in names
  }

  lemma {:induction false} CrdsByName(crds: seq<string>)
    ensures HasSnapshotCrds(crds) <==>
            AnyPresent(crds, {"volumesnapshotclasses.snapshot.storage.k8s.io", "volumesnapshotcontents.snapshot.storage.k8s.io",
                              "volumesnapshots.snapshot.storage.k8s.io"})
    ensures HasJaegerCrds(crds) <==> AnyPresent(crds, {"jaegers.jaegertracing.io"})
  {
  }

  /** A set of CRDs is switched off exactly when the cluster has at least one of the set. */
  lemma {:induction false} PresentCrdsAreSwitchedOff(i: Inputs, v: Yaml)
    requires MigratesTo(i, v)
    ensures var p := P4(Crds, Csi, VolumeSnapshots, Enabled);
            var snapshots := {"volumesnapshotclasses.snapshot.storage.k8s.io", "volumesnapshotcontents.snapshot.storage.k8s.io",
                              "volumesnapshots.snapshot.storage.k8s.io"};
            Get(v, p) == if AnyPresent(i.crds, snapshots) then Some(Bool(false)) else Get(Merged(i), p)
    ensures var p := P3(Crds, Jaeger, Enabled);
            Get(v, p) == if AnyPresent(i.crds, {"jaegers.jaegertracing.io"}) then Some(Bool(false)) else Get(Merged(i), p)
  {
    TogglesOwned();
    TogglesBlock(i);
    CrdsByName(i.crds);
    FirstToggle(i, v, SnapshotTogglePath(), JaegerTogglePath(), HasSnapshotCrds(i.crds), HasJaegerCrds(i.crds));
    SecondToggle(i, v, SnapshotTogglePath(), JaegerTogglePath(), HasSnapshotCrds(i.crds), HasJaegerCrds(i.crds));
  }
}
