/**
  The values migration of a helm upgrade: the source release's values merged over the target
  chart's, then edited in place by commands that depend on the two versions.
 */
module Migration {
  import opened Wrappers
  import opened Yaml
  import S = Semver
  import D = SetFile

  // ---------------------------------------------------------------- literals

  predicate IsDigit(c: char) {
    '0' <= c <= '9'
  }

  function ParseDigits(s: string): Option<nat> {
    if s == [] then Some(0)
    else if !IsDigit(s[|s| - 1]) then None
    else
      var front := ParseDigits(s[..|s| - 1]);
      if front.None? then None else Some(10 * front.value + (s[|s| - 1] as int - '0' as int))
  }

  predicate FitsI64(n: int) {
    -0x8000_0000_0000_0000 <= n < 0x8000_0000_0000_0000
  }

  /** Parsing as a 64-bit signed integer: an optional sign, at least one digit, and the range. */
  function ParseI64(s: string): Option<int> {
    var signed := s != "" && (s[0] == '-' || s[0] == '+');
    var digits := if signed then s[1..] else s;
    var n := ParseDigits(digits);
    if digits == "" || n.None? then None
    else
      var m: int := n.value;
      var v := if signed && s[0] == '-' then -m else m;
      if FitsI64(v) then Some(v) else None
  }

  /** How a displayed value is written: booleans, null and integers bare, anything else as a string. */
  function Literal(s: string): Yaml {
    if s == "true" then Bool(true)
    else if s == "false" then Bool(false)
    else if s == "null" then Null
    else if ParseI64(s).Some? then Int(ParseI64(s).value)
    else Str(s)
  }

  lemma {:induction false} DecimalsParse(n: nat)
    ensures ParseDigits(D.Decimal(n)) == Some(n) && D.Decimal(n) != "" && IsDigit(D.Decimal(n)[0])
  {
    var s := D.Decimal(n);
    if n < 10 {
      assert s[..|s| - 1] == "";
    } else {
      DecimalsParse(n / 10);
      assert s[..|s| - 1] == D.Decimal(n / 10) && s[|s| - 1] == D.Digit(n % 10);
      assert s[0] == D.Decimal(n / 10)[0];
    }
  }

  /** How an integer is displayed. */
  function Displayed(n: int): string {
    if n < 0 then "-" + D.Decimal(-n) else D.Decimal(n)
  }

  lemma {:induction false} PlainNumber(s: string, n: nat)
    requires s != "" && IsDigit(s[0]) && ParseDigits(s) == Some(n)
    ensures ParseI64(s) == if FitsI64(n) then Some(n) else None
  {
  }

  lemma {:induction false} SignedNumber(s: string, digits: string, n: nat, v: int)
    requires s == "-" + digits && digits != "" && ParseDigits(digits) == Some(n) && v + n == 0
    ensures ParseI64(s) == if FitsI64(v) then Some(v) else None
  {
    assert s[1..] == digits && s[0] == '-';
  }

  lemma {:induction false} DisplayedParses(n: int, s: string)
    requires s == Displayed(n)
    ensures s != "" && (s[0] == '-' || IsDigit(s[0]))
    ensures ParseI64(s) == if FitsI64(n) then Some(n) else None
  {
    if n < 0 {
      DecimalsParse(-n);
      SignedNumber(s, D.Decimal(-n), -n, n);
    } else {
      DecimalsParse(n);
      PlainNumber(s, n);
    }
  }

  lemma {:induction false} NoWord(s: string)
    requires s != "" && (s[0] == '-' || IsDigit(s[0]))
    ensures s != "true" && s != "false" && s != "null"
  {
  }

  /** A displayed integer is written as that integer if it fits 64 bits, and as a string otherwise. */
  lemma {:induction false} DisplayedIntegers(n: int)
    ensures Literal(Displayed(n)) ==
            if FitsI64(n) then Int(n) else Str(Displayed(n))
  {
    DisplayedParses(n, Displayed(n));
    NoWord(Displayed(n));
  }

  predicate AllDigits(s: string) {
    forall k :: 0 <= k < |s| ==> '0' <= s[k] <= '9'
  }

  lemma {:induction false} ParseDigitsIff(s: string)
    ensures ParseDigits(s) == if AllDigits(s) then Some(D.FromDecimal(s)) else None
    decreases |s|
  {
    if s != "" {
      var front := s[..|s| - 1];
      ParseDigitsIff(front);
      assert AllDigits(s) <==> AllDigits(front) && '0' <= s[|s| - 1] <= '9';
    }
  }

  /** `s` is a decimal number, with or without a sign, and its value is `n`. */
  predicate Denotes(s: string, n: int) {
    if s != "" && (s[0] == '-' || s[0] == '+') then
      |s| > 1 && AllDigits(s[1..]) && n == if s[0] == '-' then -(D.FromDecimal(s[1..]) as int) else D.FromDecimal(s[1..])
    else s != "" && AllDigits(s) && n == D.FromDecimal(s)
  }

  lemma {:induction false} ParseI64Iff(s: string, n: int)
    ensures ParseI64(s) == Some(n) <==> Denotes(s, n) && FitsI64(n)
  {
    ParseDigitsIff(s);
    if s != "" {
      ParseDigitsIff(s[1..]);
    }
  }

  /** What is written for a text: a boolean, null or an integer for the texts of these, and the text itself otherwise. */
  lemma {:induction false} LiteralIff(s: string, n: int)
    ensures Literal(s) == Bool(true) <==> s == "true"
    ensures Literal(s) == Bool(false) <==> s == "false"
    ensures Literal(s) == Null <==> s == "null"
    ensures s != "true" && s != "false" && s != "null" ==> (Literal(s) == Int(n) <==> Denotes(s, n) && FitsI64(n))
    ensures Literal(s) == Str(s) || Literal(s).Bool? || Literal(s).Null? || Literal(s).Int?
  {
    ParseI64Iff(s, n);
    assert |"true"| == |"null"| == 4 && |"false"| == 5 && "true"[0] != "null"[0];
  }

  // ---------------------------------------------------------------- inputs

  /** What the deserialized values report at a path: its string, or the default when it is missing. */
  function Text(y: Yaml, p: Path): string {
    if Get(y, p).Some? && Get(y, p).value.Str? then Get(y, p).value.s else ""
  }

  function Flag(y: Yaml, p: Path): bool {
    Get(y, p).Some? && Get(y, p).value.Bool? && Get(y, p).value.b
  }

  type NonemptyString = s: string | s != "" witness "-"

  /**
    `extraClient` is the client configuration that the source's text parses to, if it does;
    `oldScrapeConfigs` is the default that promtail had before 2.5; `crds` are the names of
    the custom resource definitions that the cluster has.
   */
  datatype Inputs = Inputs(
    sourceVersion: S.Version,
    targetVersion: S.Version,
    source: Yaml,
    target: Yaml,
    oldScrapeConfigs: NonemptyString,
    extraClient: Option<Yaml>,
    crds: seq<string>)

  function P2(a: Key, b: Key): Path { Under(a, Under(b, Here)) }
  function P3(a: Key, b: Key, c: Key): Path { Under(a, P2(b, c)) }
  function P4(a: Key, b: Key, c: Key, d: Key): Path { Under(a, P3(b, c, d)) }
  function P5(a: Key, b: Key, c: Key, d: Key, e: Key): Path { Under(a, P4(b, c, d, e)) }

  function LogLevelPath(): Path { P2(IoEngine, LogLevel) }
  function ScrapeConfigsPath(): Path { P5(LokiStack, Promtail, Config, Snippets, ScrapeConfigs) }
  function IoTimeoutPath(): Path { P4(Csi, Node, Nvme, IoTimeout) }
  function EventingPath(): Path { P2(Eventing, Enabled) }
  function LocalpvVersionPath(): Path { P3(LocalpvProvisioner, Release, Version) }
  function KvstorePath(): Path {
    Under(LokiStack, Under(Loki, P5(Config, Ingester, Lifecycler, Ring, Kvstore)))
  }
  function ExtraClientsPath(): Path { P5(LokiStack, Promtail, Config, Snippets, ExtraClientConfigs) }
  function InitContainerPath(): Path { P3(LokiStack, Promtail, InitContainer) }
  function ClientsPath(): Path { P4(LokiStack, Promtail, Config, Clients) }
  function LokiAddressPath(): Path { P4(LokiStack, Promtail, Config, LokiAddress) }
  function SilenceLevelPath(): Path { P3(Base, Logging, SilenceLevel) }
  function LogSilenceLevelPath(): Path { P2(Base, LogSilenceLevel) }
  function PluginMountPathPath(): Path { P3(Csi, Node, PluginMountPath) }
  function PluginMounthPathPath(): Path { P3(Csi, Node, PluginMounthPath) }
  function CsiTagPath(k: Key): Path { P3(Csi, Image, k) }

  const OLD_LOG_LEVEL: string := "info,io_engine=info"
  const OLD_IO_TIMEOUT: string := "30"
  const OLD_LOCALPV_VERSION: string := "3.4.0"

  // ---------------------------------------------------------------- the edits

  /** Writes the target's own value at `p`. */
  function FromTarget(i: Inputs, p: Path): Edit {
    Assign(p, Literal(Text(i.target, p)))
  }

  /** The source still has the old default at `p`, and the target no longer does. */
  predicate DefaultMoved(i: Inputs, p: Path, prior: string) {
    Text(i.source, p) == prior && Text(i.target, p) != prior
  }

  function MoveDefault(i: Inputs, p: Path, prior: string): seq<Edit> {
    if DefaultMoved(i, p, prior) then [FromTarget(i, p)] else []
  }

  function LogLevelEdits(i: Inputs): seq<Edit> {
    if S.FromTwoDotOUpTo(i.sourceVersion, 1) then MoveDefault(i, LogLevelPath(), OLD_LOG_LEVEL) else []
  }

  function RepoTagEdits(i: Inputs): seq<Edit> {
    if S.AtLeast(i.targetVersion, S.TWO_DOT_ONE) then
      [FromTarget(i, P3(Image, RepoTags, ControlPlane)),
       FromTarget(i, P3(Image, RepoTags, DataPlane)),
       FromTarget(i, P3(Image, RepoTags, Extensions))]
    else []
  }

  function EventingEdits(i: Inputs): seq<Edit> {
    if S.AtLeast(i.sourceVersion, S.TWO_DOT_THREE) && S.Below(i.sourceVersion, S.TWO_DOT_FOUR)
       && Flag(i.source, EventingPath()) != Flag(i.target, EventingPath()) then
      [Assign(EventingPath(), Bool(Flag(i.target, EventingPath())))]
    else []
  }

  function ScrapeConfigEdits(i: Inputs): seq<Edit> {
    if S.FromTwoDotOUpTo(i.sourceVersion, 5) then MoveDefault(i, ScrapeConfigsPath(), i.oldScrapeConfigs) else []
  }

  function IoTimeoutEdits(i: Inputs): seq<Edit> {
    if S.FromTwoDotOUpTo(i.sourceVersion, 5) then MoveDefault(i, IoTimeoutPath(), OLD_IO_TIMEOUT) else []
  }

  function LocalpvEdits(i: Inputs): seq<Edit> {
    if DefaultMoved(i, LocalpvVersionPath(), OLD_LOCALPV_VERSION) then
      [FromTarget(i, LocalpvVersionPath()),
       FromTarget(i, P4(LocalpvProvisioner, Localpv, Image, Tag)),
       FromTarget(i, P4(LocalpvProvisioner, HelperPod, Image, Tag))]
    else []
  }

  function LokiStackTagEdits(i: Inputs): seq<Edit> {
    [FromTarget(i, P4(LokiStack, Loki, Image, Tag)),
     FromTarget(i, P3(LokiStack, Filebeat, ImageTag)),
     FromTarget(i, P3(LokiStack, Logstash, ImageTag)),
     FromTarget(i, P4(LokiStack, Grafana, DownloadDashboardsImage, Tag)),
     FromTarget(i, P4(LokiStack, Grafana, Image, Tag)),
     FromTarget(i, P5(LokiStack, Grafana, Sidecar, Image, Tag)),
     FromTarget(i, P5(LokiStack, Prometheus, Alertmanager, Image, Tag)),
     FromTarget(i, P5(LokiStack, Prometheus, NodeExporter, Image, Tag)),
     FromTarget(i, P5(LokiStack, Prometheus, Pushgateway, Image, Tag)),
     FromTarget(i, P5(LokiStack, Prometheus, Server, Image, Tag))]
  }

  function RemovalEdits(): seq<Edit> {
    [Remove(KvstorePath()), Remove(ExtraClientsPath()), Remove(InitContainerPath())]
  }

  /** The client that promtail's old address stands for. */
  function ClientOf(i: Inputs): Yaml {
    Map(map[Url := Str(Text(i.source, LokiAddressPath()))])
  }

  predicate HasExtraClient(i: Inputs) {
    Text(i.source, ExtraClientsPath()) != ""
  }

  function ClientEdits(i: Inputs): seq<Edit> {
    [Remove(ClientsPath()), AppendItem(ClientsPath(), ClientOf(i))]
    + (if HasExtraClient(i) && i.extraClient.Some?
       then [AddFieldsToFirst(ClientsPath(), i.extraClient.value)] else [])
    + [Remove(ExtraClientsPath()), Remove(LokiAddressPath())]
  }

  function InitContainers(target: Yaml): seq<Yaml> {
    if Get(target, InitContainerPath()).Some? && Get(target, InitContainerPath()).value.Arr?
    then Get(target, InitContainerPath()).value.items else []
  }

  function InitContainerEdits(containers: seq<Yaml>): (es: seq<Edit>)
    ensures forall k :: 0 <= k < |es| ==> es[k].path == InitContainerPath()
  {
    if containers == [] then []
    else [AddFields(InitContainerPath(), containers[0])] + InitContainerEdits(containers[1..])
  }

  function PromtailEdits(i: Inputs): seq<Edit> {
    [FromTarget(i, P4(LokiStack, Promtail, Config, File))]
    + InitContainerEdits(InitContainers(i.target))
    + [FromTarget(i, P5(LokiStack, Promtail, ReadinessProbe, HttpGet, HttpPath))]
  }

  /** Keys that were renamed: the source's value goes to the new one. */
  function RenameEdits(i: Inputs): seq<Edit> {
    [Assign(SilenceLevelPath(), Literal(Text(i.source, LogSilenceLevelPath()))),
     Remove(LogSilenceLevelPath()),
     Assign(PluginMountPathPath(), Literal(Text(i.source, PluginMounthPathPath()))),
     Remove(PluginMounthPathPath()),
     Assign(P3(JaegerOperator, Image, Tag), Literal(Text(i.source, P3(JaegerOperator, Image, Tag))))]
  }

  /** Tags that always come from the target chart. */
  function TagEdits(i: Inputs): seq<Edit> {
    [FromTarget(i, P2(Image, Tag)),
     FromTarget(i, CsiTagPath(ProvisionerTag)),
     FromTarget(i, CsiTagPath(AttacherTag)),
     FromTarget(i, CsiTagPath(SnapshotterTag)),
     FromTarget(i, CsiTagPath(SnapshotControllerTag)),
     FromTarget(i, CsiTagPath(RegistrarTag)),
     FromTarget(i, CsiTagPath(ResizerTag))]
  }

  predicate HasSnapshotCrds(crds: seq<string>) {
    || "volumesnapshotclasses.snapshot.storage.k8s.io" in crds
    || "volumesnapshotcontents.snapshot.storage.k8s.io" in crds
    || "volumesnapshots.snapshot.storage.k8s.io" in crds
  }

  predicate HasJaegerCrds(crds: seq<string>) {
    "jaegers.jaegertracing.io" in crds
  }

  /** CRDs that the cluster already has are not installed again. */
  function CrdEdits(i: Inputs): seq<Edit> {
    (if HasSnapshotCrds(i.crds) then [Assign(P4(Crds, Csi, VolumeSnapshots, Enabled), Bool(false))] else [])
    + (if HasJaegerCrds(i.crds) then [Assign(P3(Crds, Jaeger, Enabled), Bool(false))] else [])
  }

  /** The source asks for a client configuration that does not parse. */
  predicate BadExtraClient(i: Inputs) {
    BeforeTwoSix(i) && HasExtraClient(i) && i.extraClient.None?
  }

  function Merged(i: Inputs): Yaml {
    Merge(i.target, i.source)
  }

  // ---------------------------------------------------------------- blocks of edits

  /** The blocks of edits, in the order in which they are made. */
  datatype Block =
    | LogLevels | RepositoryTags | Events | Scraping | Timeouts
    | LocalVolumes | LokiTags | Removals | ClientList | PromtailSettings | Renames
    | Tags | CrdToggles

  const BLOCKS: nat := 13

  function BlockAt(g: nat): Block
    requires g < BLOCKS
  {
    if g == 0 then LogLevels else if g == 1 then RepositoryTags else if g == 2 then Events
    else if g == 3 then Scraping else if g == 4 then Timeouts else if g == 5 then LocalVolumes
    else if g == 6 then LokiTags else if g == 7 then Removals else if g == 8 then ClientList
    else if g == 9 then PromtailSettings else if g == 10 then Renames else if g == 11 then Tags
    else CrdToggles
  }

  /** The place of a block in the order. */
  function Place(b: Block): (g: nat)
    ensures g < BLOCKS && BlockAt(g) == b
  {
    match b
    case LogLevels => 0
    case RepositoryTags => 1
    case Events => 2
    case Scraping => 3
    case Timeouts => 4
    case LocalVolumes => 5
    case LokiTags => 6
    case Removals => 7
    case ClientList => 8
    case PromtailSettings => 9
    case Renames => 10
    case Tags => 11
    case CrdToggles => 12
  }

  /** The source is from before 2.6.0, and not before 2.0.0-rc.1. */
  predicate BeforeTwoSix(i: Inputs) {
    S.FromTwoDotOUpTo(i.sourceVersion, 6)
  }

  predicate OnlyBeforeTwoSix(b: Block) {
    b.LocalVolumes? || b.LokiTags? || b.Removals? || b.ClientList? || b.PromtailSettings? || b.Renames?
  }

  /** The edits that a block makes. */
  function EditsOf(i: Inputs, b: Block): seq<Edit> {
    if OnlyBeforeTwoSix(b) && !BeforeTwoSix(i) then []
    else
      match b
      case LogLevels => LogLevelEdits(i)
      case RepositoryTags => RepoTagEdits(i)
      case Events => EventingEdits(i)
      case Scraping => ScrapeConfigEdits(i)
      case Timeouts => IoTimeoutEdits(i)
      case LocalVolumes => LocalpvEdits(i)
      case LokiTags => LokiStackTagEdits(i)
      case Removals => RemovalEdits()
      case ClientList => ClientEdits(i)
      case PromtailSettings => PromtailEdits(i)
      case Renames => RenameEdits(i)
      case Tags => TagEdits(i)
      case CrdToggles => CrdEdits(i)
  }

  function Blocks(i: Inputs): (bs: seq<seq<Edit>>)
    ensures |bs| == BLOCKS && forall g :: 0 <= g < BLOCKS ==> bs[g] == EditsOf(i, BlockAt(g))
  {
    seq(BLOCKS, g requires 0 <= g < BLOCKS => EditsOf(i, BlockAt(g)))
  }

  /** The values after the first `n` blocks. */
  function After(i: Inputs, n: nat): Edited
    requires n <= BLOCKS
  {
    RunBlocks(Ok(Merged(i)), Blocks(i), n)
  }

  /** Other sources skip the blocks that are only for those before 2.6.0. */
  lemma {:induction false} BlocksSkipped(i: Inputs, r: Edited, n: nat)
    requires !BeforeTwoSix(i) && 5 <= n <= 11
    ensures RunBlocks(r, Blocks(i), n) == RunBlocks(r, Blocks(i), 5)
    decreases n
  {
    if n > 5 {
      assert OnlyBeforeTwoSix(BlockAt(n - 1));
      assert Blocks(i)[n - 1] == [];
      BlocksSkipped(i, r, n - 1);
    }
  }

  /** The migrated values, or the failure of the command that could not be carried out. */
  function Migrate(i: Inputs): Edited {
    if BadExtraClient(i) then Err(YqCommandFailed) else After(i, BLOCKS)
  }

  // ---------------------------------------------------------------- the file being edited

  /** The temporary values file. Each command reads it and writes it back. */
  class ValuesFile {
    var tree: Yaml

    constructor (tree: Yaml)
      ensures this.tree == tree
    {
      this.tree := tree;
    }

    method Edit(e: Edit) returns (ok: bool)
      modifies this
      ensures ok ==> Apply(e, old(tree)) == Ok(tree)
      ensures !ok ==> Apply(e, old(tree)).Err? && tree == old(tree)
    {
      var edited := Apply(e, tree);
      ok := edited.Ok?;
      if ok {
        tree := edited.value;
      }
    }

    /** A sequence of commands, up to the first one that fails; none runs after a failure. */
    method EditAll(es: seq<Edit>, going: bool) returns (ok: bool)
      modifies this
      ensures ok == (going && ApplyAll(es, old(tree)).Ok?)
      ensures ok ==> ApplyAll(es, old(tree)) == Ok(tree)
    {
      ok := going;
      if !going { return; }
      assert es[0..] == es;
      for k := 0 to |es|
        invariant ok && ApplyAll(es[k..], tree) == ApplyAll(es, old(tree))
      {
        assert es[k..][1..] == es[k + 1..];
        ok := Edit(es[k]);
        if !ok { return; }
      }
    }
  }

  /** What a file holds, given whether all commands on it succeeded so far. */
  function Outcome(ok: bool, tree: Yaml): Edited {
    if ok then Ok(tree) else Err(YqCommandFailed)
  }

  lemma {:induction false} OnlyOneError(r: Edited)
    ensures r.Err? ==> r == Err(YqCommandFailed)
  {
    if r.Err? {
      assert r.error.YqCommandFailed?;
    }
  }

  /** Makes the edits of block `b`, after those of all blocks before it. */
  method EditBlock(f: ValuesFile, blocks: seq<seq<Edit>>, b: Block, going: bool, ghost r: Edited) returns (ok: bool)
    requires |blocks| == BLOCKS && Outcome(going, f.tree) == RunBlocks(r, blocks, Place(b))
    modifies f
    ensures Outcome(ok, f.tree) == RunBlocks(r, blocks, Place(b) + 1)
  {
    OnlyOneError(ApplyAll(blocks[Place(b)], f.tree));
    ok := f.EditAll(blocks[Place(b)], going);
  }

  /** Promtail's old address and extra client configuration become a list of clients. */
  method LokiAddressToClients(f: ValuesFile, i: Inputs, going: bool) returns (ok: bool)
    requires !(HasExtraClient(i) && i.extraClient.None?)
    modifies f
    ensures Outcome(ok, f.tree) == Continue(Outcome(going, old(f.tree)), ClientEdits(i))
  {
    var extra := if HasExtraClient(i) then [AddFieldsToFirst(ClientsPath(), i.extraClient.value)] else [];
    var first := [Remove(ClientsPath()), AppendItem(ClientsPath(), ClientOf(i))];
    var last := [Remove(ExtraClientsPath()), Remove(LokiAddressPath())];
    EditsSplit(first + extra, last, f.tree);
    EditsSplit(first, extra, f.tree);
    OnlyOneError(ApplyAll(ClientEdits(i), f.tree));
    ok := f.EditAll(first, going);
    if HasExtraClient(i) {
      ok := f.EditAll(extra, ok);
    }
    ok := f.EditAll(last, ok);
  }

  /** The edits for sources before 2.6.0. */
  method TwoSixMigration(f: ValuesFile, i: Inputs, blocks: seq<seq<Edit>>, going: bool, ghost r: Edited) returns (ok: bool)
    requires !(HasExtraClient(i) && i.extraClient.None?)
    requires |blocks| == BLOCKS && blocks[Place(ClientList)] == ClientEdits(i)
    requires Outcome(going, f.tree) == RunBlocks(r, blocks, 5)
    modifies f
    ensures Outcome(ok, f.tree) == RunBlocks(r, blocks, 11)
  {
    ok := EditBlock(f, blocks, LocalVolumes, going, r);
    ok := EditBlock(f, blocks, LokiTags, ok, r);
    ok := EditBlock(f, blocks, Removals, ok, r);
    ok := LokiAddressToClients(f, i, ok);
    ok := EditBlock(f, blocks, PromtailSettings, ok, r);
    ok := EditBlock(f, blocks, Renames, ok, r);
  }

  /** The edits for particular source and target versions before 2.6. */
  method DefaultsMigration(f: ValuesFile, blocks: seq<seq<Edit>>) returns (ok: bool)
    requires |blocks| == BLOCKS
    modifies f
    ensures Outcome(ok, f.tree) == RunBlocks(Ok(old(f.tree)), blocks, 5)
  {
    ghost var r := Ok(f.tree);
    ok := EditBlock(f, blocks, LogLevels, true, r);
    ok := EditBlock(f, blocks, RepositoryTags, ok, r);
    ok := EditBlock(f, blocks, Events, ok, r);
    ok := EditBlock(f, blocks, Scraping, ok, r);
    ok := EditBlock(f, blocks, Timeouts, ok, r);
  }

  /** The edits that every upgrade makes. */
  method DefaultOptions(f: ValuesFile, blocks: seq<seq<Edit>>, going: bool, ghost r: Edited) returns (ok: bool)
    requires |blocks| == BLOCKS && Outcome(going, f.tree) == RunBlocks(r, blocks, 11)
    modifies f
    ensures Outcome(ok, f.tree) == RunBlocks(r, blocks, BLOCKS)
  {
    ok := EditBlock(f, blocks, Tags, going, r);
    ok := EditBlock(f, blocks, CrdToggles, ok, r);
  }

  /** Compiles the values for the upgrade: a merge, then the edits that the versions call for. */
  method GenerateValuesFile(i: Inputs) returns (r: Edited)
    ensures r == Migrate(i)
  {
    var merged := Merge(Merge(Map(map[]), i.target), i.source);
    MergeIntoEmpty(i.target);
    var blocks := Blocks(i);
    var f := new ValuesFile(merged);
    var ok := DefaultsMigration(f, blocks);
    if BeforeTwoSix(i) {
      if HasExtraClient(i) && i.extraClient.None? {
        return Err(YqCommandFailed);
      }
      ClientBlock(i);
      ok := TwoSixMigration(f, i, blocks, ok, Ok(merged));
    } else {
      BlocksSkipped(i, Ok(merged), 11);
    }
    ok := DefaultOptions(f, blocks, ok, Ok(merged));
    return Outcome(ok, f.tree);
  }

  lemma {:induction false} ClientBlock(i: Inputs)
    requires BeforeTwoSix(i)
    ensures Blocks(i)[Place(ClientList)] == ClientEdits(i)
  {
  }

  /** The merge starts from an empty map, which adds nothing and hides nothing. */
  lemma {:induction false} MergeIntoEmpty(y: Yaml)
    ensures Merge(Map(map[]), y) == y
  {
    if y.Map? {
      assert Merge(Map(map[]), y).fields == y.fields;
    }
  }
}
