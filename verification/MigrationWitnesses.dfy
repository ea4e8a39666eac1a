/** Values files for which the migration does not do what its laws would have it do at first sight. */
module MigrationWitnesses {
  import opened Wrappers
  import opened Yaml
  import opened Migration
  import opened MigrationPaths
  import opened MigrationLaws
  import opened MigrationSuccess
  import S = Semver

  // ---------------------------------------------------------------- tidy values

  /** Every section that is there is a map or null, all the way down. */
  predicate Tidy(y: Yaml) {
    y.Null? || (y.Map? && forall k :: k in y.fields && IsSection(k) ==> Tidy(y.fields[k]))
  }

  lemma {:induction false} TidyIsOpen(y: Yaml, q: Path)
    requires Tidy(y) && WellKeyed(q)
    ensures Open(y, q)
    decreases q
  {
    if q.key !in FieldsOf(y) {
      NothingUnderNull(q.rest);
    } else if q.rest.Under? {
      TidyIsOpen(y.fields[q.key], q.rest);
    }
  }

  /** Tidy merged values can be migrated, whatever the versions. */
  lemma {:induction false} TidyValuesMigrate(i: Inputs)
    requires Tidy(Merged(i)) && ObjectContainers(i) && ExtraClientIsObject(i)
    ensures Migrate(i).Ok? && MigratesTo(i, Migrate(i).value)
  {
    forall b: Block, k | 0 <= k < |PathsOf(b)| ensures Open(Merged(i), PathsOf(b)[k]) {
      BlockIsWellKeyed(b);
      TidyIsOpen(Merged(i), PathsOf(b)[k]);
    }
    OpenValuesMigrate(i);
    MigratesToIff(i, Migrate(i).value);
  }

  lemma {:induction false} TidyMerge(low: Yaml, high: Yaml)
    requires Tidy(low) && Tidy(high)
    ensures Tidy(Merge(low, high))
    decreases high
  {
    if low.Map? && high.Map? {
      var m := Merge(low, high).fields;
      forall k | k in m && IsSection(k) ensures Tidy(m[k]) {
        if k in low.fields && k in high.fields {
          TidyMerge(low.fields[k], high.fields[k]);
        }
      }
    }
  }

  // ---------------------------------------------------------------- values that the job can read

  predicate HasText(y: Yaml, p: Path) {
    Get(y, p).Some? && Get(y, p).value.Str?
  }

  const AGENTS := Other("agents")
  const CORE := Other("core")
  const HA := Other("ha")

  predicate HasAgents(y: Yaml) {
    && Get(y, P2(AGENTS, CORE)).Some? && Get(y, P2(AGENTS, CORE)).value.Map?
    && Get(y, P3(AGENTS, HA, Enabled)).Some? && Get(y, P3(AGENTS, HA, Enabled)).value.Bool?
  }

  /** The fields of the core chart that the job insists on are there. */
  predicate Readable(y: Yaml) {
    && HasAgents(y)
    && Get(y, Under(Base, Here)).Some? && Get(y, Under(Base, Here)).value.Map?
    && HasText(y, P2(Image, Tag)) && HasText(y, LogLevelPath()) && HasText(y, IoTimeoutPath())
    && HasText(y, CsiTagPath(ProvisionerTag)) && HasText(y, CsiTagPath(AttacherTag)) && HasText(y, CsiTagPath(RegistrarTag))
  }

  function SidecarTags(): Yaml {
    Map(map[ProvisionerTag := Str("v3.5.0"), AttacherTag := Str("v4.3.0"), RegistrarTag := Str("v2.8.0")])
  }

  function NodeValues(): Yaml {
    Map(map[Nvme := Map(map[IoTimeout := Str("30")])])
  }

  function CsiValues(): Yaml {
    Map(map[Image := SidecarTags(), Node := NodeValues()])
  }

  function AgentValues(): Yaml {
    Map(map[CORE := Map(map[]), HA := Map(map[Enabled := Bool(true)])])
  }

  function Values(tag: string, base: Yaml): Yaml {
    Map(map[AGENTS := AgentValues(), Base := base, Image := Map(map[Tag := Str(tag)]), IoEngine := Map(map[LogLevel := Str("info")]), Csi := CsiValues()])
  }

  lemma {:induction false} LeavesAreTidy(y: Yaml)
    requires y.Map? && forall k :: k in y.fields ==> !IsSection(k)
    ensures Tidy(y)
  {
  }

  lemma {:induction false} CsiValuesAreTidy()
    ensures Tidy(CsiValues())
  {
    LeavesAreTidy(SidecarTags());
    LeavesAreTidy(NodeValues().fields[Nvme]);
    assert Tidy(NodeValues());
  }

  lemma {:induction false} ValuesAreTidy(tag: string, base: Yaml)
    requires Tidy(base)
    ensures Tidy(Values(tag, base))
  {
    CsiValuesAreTidy();
    LeavesAreTidy(Map(map[Tag := Str(tag)]));
    LeavesAreTidy(Map(map[LogLevel := Str("info")]));
  }

  lemma {:induction false} Descend(y: Yaml, k: Key, rest: Path)
    requires y.Map? && k in y.fields
    ensures Get(y, Under(k, rest)) == Get(y.fields[k], rest)
  {
  }

  lemma {:induction false} CsiValuesAreReadable(y: Yaml)
    requires y.Map? && Csi in y.fields && y.fields[Csi] == CsiValues()
    ensures HasText(y, IoTimeoutPath()) && HasText(y, CsiTagPath(ProvisionerTag))
    ensures HasText(y, CsiTagPath(AttacherTag)) && HasText(y, CsiTagPath(RegistrarTag))
  {
    Descend(y, Csi, P3(Node, Nvme, IoTimeout));
    Descend(CsiValues(), Node, P2(Nvme, IoTimeout));
    Descend(y, Csi, P2(Image, ProvisionerTag));
    Descend(y, Csi, P2(Image, AttacherTag));
    Descend(y, Csi, P2(Image, RegistrarTag));
  }

  lemma {:induction false} AgentValuesAreReadable(y: Yaml)
    requires y.Map? && AGENTS in y.fields && y.fields[AGENTS] == AgentValues()
    ensures HasAgents(y)
  {
    Descend(y, AGENTS, Under(CORE, Here));
    Descend(AgentValues(), CORE, Here);
    Descend(y, AGENTS, P2(HA, Enabled));
    Descend(AgentValues(), HA, Under(Enabled, Here));
    Descend(Map(map[Enabled := Bool(true)]), Enabled, Here);
  }

  lemma {:induction false} ValuesAreReadable(tag: string, base: Yaml)
    requires base.Map?
    ensures Readable(Values(tag, base)) && Get(Values(tag, base), P2(Image, Tag)) == Some(Str(tag))
  {
    var y := Values(tag, base);
    AgentValuesAreReadable(y);
    CsiValuesAreReadable(y);
    Descend(y, Base, Here);
    Descend(y, Image, Under(Tag, Here));
    Descend(y, IoEngine, Under(LogLevel, Here));
    assert Get(Map(map[Tag := Str(tag)]), Under(Tag, Here)) == Get(Str(tag), Here);
    assert Get(Map(map[LogLevel := Str("info")]), Under(LogLevel, Here)) == Get(Str("info"), Here);
  }

  /** An upgrade from one such file to another, in a cluster without any of the CRDs. */
  function Upgrade(sourceVersion: S.Version, targetVersion: S.Version, source: Yaml, target: Yaml): Inputs {
    Inputs(sourceVersion, targetVersion, source, target, "- job_name: pods", None, [])
  }

  lemma {:induction false} NoLokiStack(y: Yaml)
    requires y.Map? && LokiStack !in y.fields
    ensures Get(y, InitContainerPath()) == None && Get(y, ExtraClientsPath()) == None
  {
  }

  lemma {:induction false} TidyFilesMigrate(i: Inputs)
    requires Tidy(i.source) && Tidy(i.target) && i.source.Map? && i.target.Map?
    requires LokiStack !in i.source.fields && LokiStack !in i.target.fields
    ensures Migrate(i).Ok? && MigratesTo(i, Migrate(i).value)
  {
    TidyMerge(i.target, i.source);
    NoLokiStack(i.source);
    NoLokiStack(i.target);
    TidyValuesMigrate(i);
  }

  lemma {:induction false} UpgradesComplete(i: Inputs, tag: string, base: Yaml, targetTag: string, targetBase: Yaml)
    requires i.source == Values(tag, base) && i.target == Values(targetTag, targetBase)
    requires Tidy(base) && Tidy(targetBase)
    ensures Migrate(i).Ok? && MigratesTo(i, Migrate(i).value)
  {
    ValuesAreTidy(tag, base);
    ValuesAreTidy(targetTag, targetBase);
    TidyFilesMigrate(i);
  }

  // ---------------------------------------------------------------- tags that do not read as text

  /** A tag of the target chart that reads as a 64-bit integer ends as that integer, and no longer as a string. */
  lemma {:induction false} NumericTagsBecomeIntegers(i: Inputs, v: Yaml, k: nat, n: int)
    requires MigratesTo(i, v) && k < |TagPaths()| && FitsI64(n)
    requires Get(i.target, TagPaths()[k]) == Some(Str(Displayed(n)))
    ensures Get(v, TagPaths()[k]) == Some(Int(n))
  {
    TagsComeFromTarget(i, v, k);
    DisplayedIntegers(n);
  }

  /** A tag that the target chart does not set ends empty, whatever the source had. */
  lemma {:induction false} MissingTagsBecomeEmpty(i: Inputs, v: Yaml, k: nat)
    requires MigratesTo(i, v) && k < |TagPaths()| && Get(i.target, TagPaths()[k]) == None
    ensures Get(v, TagPaths()[k]) == Some(Str(""))
  {
    TagsComeFromTarget(i, v, k);
    LiteralOfString("");
  }

  lemma {:induction false} SevenIsDisplayed()
    ensures Displayed(7) == "7" && |TagPaths()| > 0 && TagPaths()[0] == P2(Image, Tag)
  {
  }

  function NumericTag(): Inputs {
    Upgrade(S.Release(2, 6), S.Release(2, 7), Values("v2.6.0", Map(map[])), Values("7", Map(map[])))
  }

  /** The target chart says the string "7"; the migrated values say the integer 7. */
  lemma {:induction false} NumericTagBecomesInteger()
    ensures var i := NumericTag();
            && Readable(i.source) && Readable(i.target) && Migrate(i).Ok?
            && Get(i.target, P2(Image, Tag)) == Some(Str("7")) && Get(Migrate(i).value, P2(Image, Tag)) == Some(Int(7))
  {
    var i := NumericTag();
    ValuesAreReadable("v2.6.0", Map(map[]));
    ValuesAreReadable("7", Map(map[]));
    UpgradesComplete(i, "v2.6.0", Map(map[]), "7", Map(map[]));
    SevenIsDisplayed();
    NumericTagsBecomeIntegers(i, Migrate(i).value, 0, 7);
  }

  // ---------------------------------------------------------------- a value at a new key

  /** Where the source does not have the old key, the new one ends empty, whatever the source had there. */
  lemma {:induction false} MissingOldKeyEmptiesNewKey(i: Inputs, v: Yaml)
    requires MigratesTo(i, v) && BeforeTwoSix(i)
    ensures Get(i.source, LogSilenceLevelPath()) == None ==> Get(v, SilenceLevelPath()) == Some(Str(""))
    ensures Get(i.source, PluginMounthPathPath()) == None ==> Get(v, PluginMountPathPath()) == Some(Str(""))
  {
    RenamedKeysMove(i, v);
    LiteralOfString("");
  }

  function UserBase(): Yaml {
    Map(map[Logging := Map(map[SilenceLevel := Str("user")])])
  }

  /** The first pre-release of 2.6.0, which has the new key already. */
  function NewKeyInUse(): Inputs {
    Upgrade(S.Version(2, 6, 0, [S.Alphanumeric("rc"), S.Numeric(1)]), S.Release(2, 6),
            Values("v2.6.0-rc.1", UserBase()), Values("v2.6.0", Map(map[])))
  }

  lemma {:induction false} UserBaseIsTidy()
    ensures Tidy(UserBase())
  {
    assert !IsSection(SilenceLevel) && Tidy(UserBase().fields[Logging]);
  }

  lemma {:induction false} UserSetsNewKey(tag: string)
    ensures Get(Values(tag, UserBase()), SilenceLevelPath()) == Some(Str("user"))
    ensures Get(Values(tag, UserBase()), LogSilenceLevelPath()) == None
  {
  }

  /** The user's silence level is lost. */
  lemma {:induction false} ValueAtNewKeyIsLost()
    ensures var i := NewKeyInUse();
            && Readable(i.source) && Readable(i.target) && Migrate(i).Ok?
            && Get(i.source, SilenceLevelPath()) == Get(Merged(i), SilenceLevelPath()) == Some(Str("user"))
            && Get(Migrate(i).value, SilenceLevelPath()) == Some(Str(""))
  {
    var i := NewKeyInUse();
    ValuesAreReadable("v2.6.0-rc.1", UserBase());
    ValuesAreReadable("v2.6.0", Map(map[]));
    UserBaseIsTidy();
    UpgradesComplete(i, "v2.6.0-rc.1", UserBase(), "v2.6.0", Map(map[]));
    UserSetsNewKey("v2.6.0-rc.1");
    SourceValueIsMerged(i, SilenceLevelPath());
    S.WindowExplained(i.sourceVersion, 6);
    MissingOldKeyEmptiesNewKey(i, Migrate(i).value);
  }
}
