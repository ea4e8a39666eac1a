/**
  The `--set-file` arguments of an upgrade: their files travel in a config map, under
  numbered entries, and the upgrade job gets arguments that name those entries instead.
 */
module SetFile {
  import opened Wrappers

  // ---------------------------------------------------------------- decimal numbers

  function Digit(d: nat): char
    requires d < 10
  {
    "0123456789"[d]
  }

  function DigitValue(c: char): nat {
    if '0' <= c <= '9' then c as int - '0' as int else 0
  }

  function Decimal(n: nat): string {
    if n < 10 then [Digit(n)] else Decimal(n / 10) + [Digit(n % 10)]
  }

  function FromDecimal(s: string): nat {
    if s == "" then 0 else 10 * FromDecimal(s[..|s| - 1]) + DigitValue(s[|s| - 1])
  }

  lemma {:induction false} DecimalRoundTrip(n: nat)
    ensures FromDecimal(Decimal(n)) == n
  {
    if n < 10 {
      assert Decimal(n)[..0] == "";
      assert FromDecimal(Decimal(n)) == 10 * FromDecimal("") + DigitValue(Digit(n));
    } else {
      DecimalRoundTrip(n / 10);
      assert Decimal(n)[..|Decimal(n)| - 1] == Decimal(n / 10);
      assert DigitValue(Digit(n % 10)) == n % 10;
    }
  }

  lemma {:induction false} DecimalsDiffer(m: nat, n: nat)
    requires m != n
    ensures Decimal(m) != Decimal(n)
  {
    DecimalRoundTrip(m);
    DecimalRoundTrip(n);
  }

  // ---------------------------------------------------------------- arguments

  datatype SetFileArg = SetFileArg(key: string, path: string)

  function BeforeEquals(s: string): (k: nat)
    ensures k <= |s| && '=' !in s[..k] && (k < |s| ==> s[k] == '=')
  {
    if s == "" || s[0] == '=' then 0
    else
      var k := BeforeEquals(s[1..]);
      assert s[..1 + k] == [s[0]] + s[1..][..k];
      1 + k
  }

  /** An argument is accepted when it splits at `=` into exactly two parts. */
  function SplitArg(s: string): (r: Option<SetFileArg>)
    ensures r.Some? ==> s == r.value.key + "=" + r.value.path && '=' !in r.value.key && '=' !in r.value.path
    ensures r.None? ==> '=' !in s || exists i, j :: 0 <= i < j < |s| && s[i] == '=' && s[j] == '='
  {
    var k := BeforeEquals(s);
    if k == |s| then assert s[..k] == s; None
    else if '=' in s[k + 1..] then
      assert exists j :: k < j < |s| && s[j] == '=' by {
        var j :| 0 <= j < |s[k + 1..]| && s[k + 1..][j] == '=';
        assert s[k + 1 + j] == '=';
      }
      None
    else
      assert s == s[..k] + [s[k]] + s[k + 1..];
      Some(SetFileArg(s[..k], s[k + 1..]))
  }

  datatype SetFileError = InvalidSetFileArguments | ReadFromFile | SpecifiedKeyNotPresent

  /** The config map's entries, and the entry that each file path was last given. */
  datatype Mapping = Mapping(data: map<string, string>, entryOf: map<string, string>)

  // ---------------------------------------------------------------- the config map

  /** The config map for `args`; entry numbers start at 1. */
  function ConfigMapData(args: seq<string>, files: map<string, string>): Result<Mapping, SetFileError> {
    if args == [] then Ok(Mapping(map[], map[]))
    else
      var n := |args| - 1;
      var front := ConfigMapData(args[..n], files);
      if front.Err? then front
      else if SplitArg(args[n]).None? then Err(InvalidSetFileArguments)
      else
        var path := SplitArg(args[n]).value.path;
        if path !in files then Err(ReadFromFile)
        else Ok(Mapping(front.value.data[Decimal(n + 1) := files[path]],
                        front.value.entryOf[path := Decimal(n + 1)]))
  }

  method CreateConfigMapData(args: seq<string>, files: map<string, string>) returns (r: Result<Mapping, SetFileError>)
    ensures r == ConfigMapData(args, files)
  {
    var dataMap: map<string, string>, upgradeMap: map<string, string> := map[], map[];
    var index := 1;
    for i := 0 to |args|
      invariant index == i + 1
      invariant ConfigMapData(args[..i], files) == Ok(Mapping(dataMap, upgradeMap))
    {
      assert args[..i + 1][..i] == args[..i];
      var parts := SplitArg(args[i]);
      if parts.None? {
        FailureIsFinal(args, files, i + 1);
        return Err(InvalidSetFileArguments);
      }
      var path := parts.value.path;
      if path !in files {
        FailureIsFinal(args, files, i + 1);
        return Err(ReadFromFile);
      }
      dataMap := dataMap[Decimal(index) := files[path]];
      upgradeMap := upgradeMap[path := Decimal(index)];
      index := index + 1;
    }
    assert args[..|args|] == args;
    return Ok(Mapping(dataMap, upgradeMap));
  }

  lemma {:induction false} FailureIsFinal(args: seq<string>, files: map<string, string>, n: nat)
    requires n <= |args| && ConfigMapData(args[..n], files).Err?
    ensures ConfigMapData(args, files) == ConfigMapData(args[..n], files)
    decreases |args|
  {
    if n == |args| {
      assert args[..n] == args;
    } else {
      assert args[..|args| - 1][..n] == args[..n];
      FailureIsFinal(args[..|args| - 1], files, n);
    }
  }

  // ---------------------------------------------------------------- the job's arguments

  const UPGRADE_CONFIG_MAP_MOUNT_PATH: string := "/upgrade-config-map"

  function JobArg(key: string, entry: string): string {
    key + "=" + UPGRADE_CONFIG_MAP_MOUNT_PATH + "/" + entry
  }

  /** The arguments handed to the job, one for each of `args`. */
  function JobArgs(args: seq<string>, entryOf: map<string, string>): Result<seq<string>, SetFileError> {
    if args == [] then Ok([])
    else
      var n := |args| - 1;
      var front := JobArgs(args[..n], entryOf);
      if front.Err? then front
      else if SplitArg(args[n]).None? then Err(InvalidSetFileArguments)
      else
        var arg := SplitArg(args[n]).value;
        if arg.path !in entryOf then Err(SpecifiedKeyNotPresent)
        else Ok(front.value + [JobArg(arg.key, entryOf[arg.path])])
  }

  function Join(parts: seq<string>): string {
    if parts == [] then "" else if |parts| == 1 then parts[0] else parts[0] + "," + Join(parts[1..])
  }

  function FirstComma(s: string): (k: nat)
    ensures k <= |s| && ',' !in s[..k] && (k < |s| ==> s[k] == ',')
  {
    if s == "" || s[0] == ',' then 0
    else
      var k := FirstComma(s[1..]);
      assert s[..1 + k] == [s[0]] + s[1..][..k];
      1 + k
  }

  /** The parts of a text between its commas. */
  function SplitAtCommas(s: string): seq<string>
    decreases |s|
  {
    var k := FirstComma(s);
    if k == |s| then [s] else [s[..k]] + SplitAtCommas(s[k + 1..])
  }

  lemma {:induction false} FirstCommaIs(s: string, k: nat)
    requires k <= |s| && ',' !in s[..k] && (k < |s| ==> s[k] == ',')
    ensures FirstComma(s) == k
  {
    var j := FirstComma(s);
    assert forall x :: 0 <= x < k ==> s[x] == s[..k][x];
    assert forall x :: 0 <= x < j ==> s[x] == s[..j][x];
  }

  lemma {:induction false} SplitsAfterFirst(part: string, rest: string, all: string)
    requires ',' !in part && all == part + "," + rest
    ensures SplitAtCommas(all) == [part] + SplitAtCommas(rest)
  {
    var k := |part|;
    assert all[..k] == part && all[k] == ',' && all[k + 1..] == rest;
    FirstCommaIs(all, k);
  }

  /** Nothing is lost by joining: arguments without a comma are had back by splitting at the commas. */
  lemma {:induction false} JoinSplits(parts: seq<string>)
    requires parts != [] && forall i :: 0 <= i < |parts| ==> ',' !in parts[i]
    ensures SplitAtCommas(Join(parts)) == parts
    decreases |parts|
  {
    var first, rest := parts[0], parts[1..];
    if rest == [] {
      assert first[..|first|] == first && parts == [first];
      FirstCommaIs(first, |first|);
    } else {
      JoinSplits(rest);
      SplitsAfterFirst(first, Join(rest), Join(parts));
    }
  }

  method CreateHelmSetFileArgs(args: seq<string>, setFileMap: Option<map<string, string>>)
    returns (r: Result<Option<string>, SetFileError>)
    ensures args == [] ==> r == Ok(None)
    ensures args != [] && setFileMap.Some? && JobArgs(args, setFileMap.value).Ok? ==>
              r == Ok(Some(Join(JobArgs(args, setFileMap.value).value)))
    ensures args != [] && setFileMap.Some? && JobArgs(args, setFileMap.value).Err? ==>
              r == Err(JobArgs(args, setFileMap.value).error)
    ensures args != [] && setFileMap.None? ==>
              r == Err(if SplitArg(args[0]).None? then InvalidSetFileArguments else SpecifiedKeyNotPresent)
  {
    if args == [] {
      return Ok(None);
    }
    var helmArgs: seq<string> := [];
    for i := 0 to |args|
      invariant setFileMap.Some? ==> JobArgs(args[..i], setFileMap.value) == Ok(helmArgs)
      invariant setFileMap.None? ==> i == 0
    {
      assert args[..i + 1][..i] == args[..i];
      var parts := SplitArg(args[i]);
      if parts.None? {
        if setFileMap.Some? { JobFailureIsFinal(args, setFileMap.value, i + 1); }
        return Err(InvalidSetFileArguments);
      }
      if setFileMap.None? {
        return Err(SpecifiedKeyNotPresent);
      }
      if parts.value.path !in setFileMap.value {
        JobFailureIsFinal(args, setFileMap.value, i + 1);
        return Err(SpecifiedKeyNotPresent);
      }
      helmArgs := helmArgs + [JobArg(parts.value.key, setFileMap.value[parts.value.path])];
    }
    assert args[..|args|] == args;
    return Ok(Some(Join(helmArgs)));
  }

  lemma {:induction false} JobFailureIsFinal(args: seq<string>, entryOf: map<string, string>, n: nat)
    requires n <= |args| && JobArgs(args[..n], entryOf).Err?
    ensures JobArgs(args, entryOf) == JobArgs(args[..n], entryOf)
    decreases |args|
  {
    if n == |args| {
      assert args[..n] == args;
    } else {
      assert args[..|args| - 1][..n] == args[..n];
      JobFailureIsFinal(args[..|args| - 1], entryOf, n);
    }
  }

  // ---------------------------------------------------------------- agreement

  /** The path leads to an entry of the config map that holds its file. */
  predicate Leads(m: Mapping, path: string, files: map<string, string>) {
    path in files && path in m.entryOf && m.entryOf[path] in m.data && m.data[m.entryOf[path]] == files[path]
  }

  /** The argument is accepted, and its path leads to its file. */
  predicate LeadsToFile(m: Mapping, arg: string, files: map<string, string>) {
    SplitArg(arg).Some? && Leads(m, SplitArg(arg).value.path, files)
  }

  ghost predicate Numbered(entry: string, n: nat) {
    exists k: nat :: 1 <= k <= n && entry == Decimal(k)
  }

  lemma {:induction false} EntriesAreNumbered(args: seq<string>, files: map<string, string>)
    requires ConfigMapData(args, files).Ok?
    ensures forall e :: e in ConfigMapData(args, files).value.data ==> Numbered(e, |args|)
    decreases |args|
  {
    if args != [] {
      var n := |args| - 1;
      EntriesAreNumbered(args[..n], files);
      forall e | e in ConfigMapData(args, files).value.data ensures Numbered(e, |args|) {
        if e == Decimal(n + 1) {
          assert 1 <= n + 1 <= |args|;
        } else {
          assert Numbered(e, n);
          var k: nat :| 1 <= k <= n && e == Decimal(k);
          assert 1 <= k <= |args|;
        }
      }
    }
  }

  lemma {:induction false} NextEntryIsNew(n: nat)
    ensures !Numbered(Decimal(n + 1), n)
  {
    if Numbered(Decimal(n + 1), n) {
      var k: nat :| 1 <= k <= n && Decimal(n + 1) == Decimal(k);
      DecimalsDiffer(n + 1, k);
    }
  }

  lemma {:induction false} FurtherEntryKeeps(m: Mapping, entry: string, path: string, other: string, files: map<string, string>)
    requires Leads(m, other, files) && entry !in m.data && path in files
    ensures Leads(Mapping(m.data[entry := files[path]], m.entryOf[path := entry]), other, files)
  {
  }

  lemma {:induction false} ArgsKeepLeading(args: seq<string>, m: Mapping, entry: string, path: string, files: map<string, string>)
    requires forall i :: 0 <= i < |args| ==> LeadsToFile(m, args[i], files)
    requires entry !in m.data && path in files
    ensures forall i :: 0 <= i < |args| ==>
              LeadsToFile(Mapping(m.data[entry := files[path]], m.entryOf[path := entry]), args[i], files)
  {
    forall i | 0 <= i < |args|
      ensures LeadsToFile(Mapping(m.data[entry := files[path]], m.entryOf[path := entry]), args[i], files)
    {
      FurtherEntryKeeps(m, entry, path, SplitArg(args[i]).value.path, files);
    }
  }

  lemma {:induction false} AllLead(args: seq<string>, front: seq<string>, m: Mapping, files: map<string, string>)
    requires args != [] && front == args[..|args| - 1] && LeadsToFile(m, args[|args| - 1], files)
    requires forall i :: 0 <= i < |front| ==> LeadsToFile(m, front[i], files)
    ensures forall i :: 0 <= i < |args| ==> LeadsToFile(m, args[i], files)
  {
    forall i | 0 <= i < |args| ensures LeadsToFile(m, args[i], files) {
      if i < |front| {
        assert front[i] == args[i];
      }
    }
  }

  /** Entries are numbered one by one, so that no later file overwrites an earlier one. */
  lemma {:induction false} EveryArgLeadsToItsFile(args: seq<string>, files: map<string, string>)
    requires ConfigMapData(args, files).Ok?
    ensures forall i :: 0 <= i < |args| ==> LeadsToFile(ConfigMapData(args, files).value, args[i], files)
    decreases |args|
  {
    if args != [] {
      var n := |args| - 1;
      var front, m := ConfigMapData(args[..n], files), ConfigMapData(args, files).value;
      var path := SplitArg(args[n]).value.path;
      EveryArgLeadsToItsFile(args[..n], files);
      EntriesAreNumbered(args[..n], files);
      NextEntryIsNew(n);
      ArgsKeepLeading(args[..n], front.value, Decimal(n + 1), path, files);
      assert m == Mapping(front.value.data[Decimal(n + 1) := files[path]], front.value.entryOf[path := Decimal(n + 1)]);
      assert LeadsToFile(m, args[n], files);
      AllLead(args, args[..n], m, files);
    }
  }

  /**
    `arg` is a key, `=` and a path; `out` is the same key, `=` and the place where an entry is
    mounted that holds exactly the content of the file at that path.
   */
  ghost predicate NamesFile(m: Mapping, out: string, arg: string, files: map<string, string>) {
    exists key, path, entry ::
      && arg == key + "=" + path && '=' !in key && '=' !in path && path in files
      && Holds(m, entry, files[path]) && out == key + "=/upgrade-config-map/" + entry
  }

  predicate Holds(m: Mapping, entry: string, content: string) {
    entry in m.data && m.data[entry] == content
  }

  lemma {:induction false} LeadingArgIsNamed(m: Mapping, arg: string, files: map<string, string>)
    requires LeadsToFile(m, arg, files)
    ensures NamesFile(m, JobArg(SplitArg(arg).value.key, m.entryOf[SplitArg(arg).value.path]), arg, files)
  {
    var a := SplitArg(arg).value;
    var entry := m.entryOf[a.path];
    assert Holds(m, entry, files[a.path]);
    MountedAt(a.key, entry);
  }

  lemma {:induction false} MountedAt(key: string, entry: string)
    ensures JobArg(key, entry) == key + "=/upgrade-config-map/" + entry
  {
    assert "=" + "/upgrade-config-map" + "/" == "=/upgrade-config-map/";
    assert key + "=" + "/upgrade-config-map" + "/" + entry == key + ("=" + "/upgrade-config-map" + "/") + entry;
  }

  /** Each of `outs` names the file of its argument. */
  ghost predicate AllNamed(m: Mapping, outs: seq<string>, args: seq<string>, files: map<string, string>) {
    |outs| == |args| && forall i :: 0 <= i < |args| ==> NamesFile(m, outs[i], args[i], files)
  }

  lemma {:induction false} OneMoreNamed(m: Mapping, outs: seq<string>, out: string, front: seq<string>, args: seq<string>, files: map<string, string>)
    requires AllNamed(m, outs, front, files) && args != [] && front == args[..|args| - 1] && NamesFile(m, out, args[|args| - 1], files)
    ensures AllNamed(m, outs + [out], args, files)
  {
    forall i | 0 <= i < |args| ensures NamesFile(m, (outs + [out])[i], args[i], files) {
      if i < |front| {
        assert front[i] == args[i] && NamesFile(m, outs[i], front[i], files);
      }
    }
  }

  /** One more argument that leads to its file. */
  lemma {:induction false} OneMoreJobArg(args: seq<string>, front: seq<string>, entryOf: map<string, string>)
    requires args != [] && front == args[..|args| - 1] && JobArgs(front, entryOf).Ok?
    requires SplitArg(args[|args| - 1]).Some? && SplitArg(args[|args| - 1]).value.path in entryOf
    ensures var arg := SplitArg(args[|args| - 1]).value;
            JobArgs(args, entryOf) == Ok(JobArgs(front, entryOf).value + [JobArg(arg.key, entryOf[arg.path])])
  {
  }

  lemma {:induction false} JobArgsFollow(args: seq<string>, m: Mapping, files: map<string, string>)
    requires forall i :: 0 <= i < |args| ==> LeadsToFile(m, args[i], files)
    ensures JobArgs(args, m.entryOf).Ok? && AllNamed(m, JobArgs(args, m.entryOf).value, args, files)
    decreases |args|
  {
    if args != [] {
      var n := |args| - 1;
      var front := args[..n];
      forall i | 0 <= i < |front| ensures LeadsToFile(m, front[i], files) {
        assert front[i] == args[i];
      }
      JobArgsFollow(front, m, files);
      assert LeadsToFile(m, args[n], files);
      var arg := SplitArg(args[n]).value;
      LeadingArgIsNamed(m, args[n], files);
      OneMoreJobArg(args, front, m.entryOf);
      OneMoreNamed(m, JobArgs(front, m.entryOf).value, JobArg(arg.key, m.entryOf[arg.path]), front, args, files);
    }
  }

  /**
    Whatever arguments the config map accepts, the job's arguments accept too; the i-th of
    them keeps key i and names an entry that holds exactly the content of file i, also when
    a path is given more than once.
   */
  lemma {:induction false} JobArgsNameTheFiles(args: seq<string>, files: map<string, string>)
    requires ConfigMapData(args, files).Ok?
    ensures var m := ConfigMapData(args, files).value;
            var outs := JobArgs(args, m.entryOf);
            outs.Ok? && AllNamed(m, outs.value, args, files)
  {
    EveryArgLeadsToItsFile(args, files);
    JobArgsFollow(args, ConfigMapData(args, files).value, files);
  }

  /** How the job's arguments fail: for the first argument that does not split in two, or whose path has no entry. */
  lemma {:induction false} JobArgsFailIff(args: seq<string>, entryOf: map<string, string>, n: nat)
    requires n < |args| && JobArgs(args[..n], entryOf).Ok?
    ensures SplitArg(args[n]).None? ==> JobArgs(args, entryOf) == Err(InvalidSetFileArguments)
    ensures SplitArg(args[n]).Some? && SplitArg(args[n]).value.path !in entryOf ==>
              JobArgs(args, entryOf) == Err(SpecifiedKeyNotPresent)
  {
    assert args[..n + 1][..n] == args[..n];
    if SplitArg(args[n]).None? || SplitArg(args[n]).value.path !in entryOf {
      JobFailureIsFinal(args, entryOf, n + 1);
    }
  }

  /** The argument splits in two, and its file can be read. */
  predicate Acceptable(arg: string, files: map<string, string>) {
    SplitArg(arg).Some? && SplitArg(arg).value.path in files
  }

  predicate AllAcceptable(args: seq<string>, files: map<string, string>) {
    forall i :: 0 <= i < |args| ==> Acceptable(args[i], files)
  }

  lemma {:induction false} OneMoreAcceptable(args: seq<string>, front: seq<string>, files: map<string, string>)
    requires args != [] && front == args[..|args| - 1]
    ensures AllAcceptable(args, files) <==> AllAcceptable(front, files) && Acceptable(args[|args| - 1], files)
  {
    assert forall i :: 0 <= i < |front| ==> front[i] == args[i];
  }

  /** The config map is accepted exactly when every argument splits in two and its file can be read. */
  lemma {:induction false} ConfigMapAcceptedIff(args: seq<string>, files: map<string, string>)
    ensures ConfigMapData(args, files).Ok? <==> AllAcceptable(args, files)
    decreases |args|
  {
    if args != [] {
      var front := args[..|args| - 1];
      ConfigMapAcceptedIff(front, files);
      OneMoreAcceptable(args, front, files);
    }
  }
}
