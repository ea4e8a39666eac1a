/**
  Disk aggregates of the call-home report: per-type counts and capacities, collected in
  loops over devices and pools. How a device is classified is left open.
 */
module DiskReport {
  import opened Wrappers

  const BYTES_PER_SECTOR: nat := 512

  datatype Partition = Partition(name: string)

  datatype BlockDevice = BlockDevice(devname: string, devlinks: seq<string>, size: nat, partition: Option<Partition>)

  datatype DiskTypeInfo = DiskTypeInfo(count: nat, capacity: nat) {
    function Plus(other: DiskTypeInfo): DiskTypeInfo {
      DiskTypeInfo(count + other.count, capacity + other.capacity)
    }
  }

  const NONE := DiskTypeInfo(0, 0)

  type Report = map<string, DiskTypeInfo>

  /** The entry of a type, or the default that it starts from. */
  function Entry(r: Report, t: string): DiskTypeInfo {
    if t in r then r[t] else NONE
  }

  function AddTo(r: Report, t: string, info: DiskTypeInfo): Report {
    r[t := Entry(r, t).Plus(info)]
  }

  // ---------------------------------------------------------------- totals

  ghost function TotalOver(ts: set<string>, r: Report): DiskTypeInfo
    requires ts <= r.Keys
  {
    if ts == {} then NONE
    else
      var t :| t in ts;
      r[t].Plus(TotalOver(ts - {t}, r))
  }

  /** The sum over all types. */
  ghost function Total(r: Report): DiskTypeInfo {
    TotalOver(r.Keys, r)
  }

  lemma {:induction false} TotalSplits(ts: set<string>, r: Report, t: string)
    requires ts <= r.Keys && t in ts
    ensures TotalOver(ts, r) == r[t].Plus(TotalOver(ts - {t}, r))
    decreases |ts|
  {
    var x :| x in ts && TotalOver(ts, r) == r[x].Plus(TotalOver(ts - {x}, r));
    if x != t {
      var rest := ts - {x} - {t};
      TotalSplits(ts - {x}, r, t);
      TotalSplits(ts - {t}, r, x);
      assert ts - {t} - {x} == rest;
      var z := TotalOver(rest, r);
      assert TotalOver(ts, r) == r[x].Plus(r[t].Plus(z));
      assert TotalOver(ts - {t}, r) == r[x].Plus(z);
    }
  }

  lemma {:induction false} TotalIgnoresOthers(ts: set<string>, r: Report, q: Report)
    requires ts <= r.Keys && ts <= q.Keys && forall t :: t in ts ==> r[t] == q[t]
    ensures TotalOver(ts, r) == TotalOver(ts, q)
    decreases |ts|
  {
    if ts != {} {
      var t :| t in ts;
      TotalSplits(ts, r, t);
      TotalSplits(ts, q, t);
      TotalIgnoresOthers(ts - {t}, r, q);
    }
  }

  /** Adding to one type adds as much to the total. */
  lemma {:induction false} TotalGrows(r: Report, t: string, info: DiskTypeInfo)
    ensures Total(AddTo(r, t, info)) == Total(r).Plus(info)
  {
    var q := AddTo(r, t, info);
    TotalSplits(q.Keys, q, t);
    TotalIgnoresOthers(r.Keys - {t}, r, q);
    if t in r {
      TotalSplits(r.Keys, r, t);
      assert q.Keys - {t} == r.Keys - {t};
    } else {
      assert q.Keys - {t} == r.Keys == r.Keys - {t};
    }
  }

  // ---------------------------------------------------------------- storage media

  /** The devices of type `t` among `disks`: how many, and how many bytes. */
  function OfType(disks: seq<BlockDevice>, typeOf: BlockDevice -> string, t: string): DiskTypeInfo {
    if disks == [] then NONE
    else
      var n := |disks| - 1;
      var front := OfType(disks[..n], typeOf, t);
      if typeOf(disks[n]) == t then front.Plus(DiskTypeInfo(1, disks[n].size * BYTES_PER_SECTOR)) else front
  }

  function TotalSize(disks: seq<BlockDevice>): nat {
    if disks == [] then 0 else TotalSize(disks[..|disks| - 1]) + disks[|disks| - 1].size
  }

  datatype StorageMedia = StorageMedia(count: nat, totalCapacity: nat, diskTypes: Report)

  /**
    The report on storage media: each type's entry covers exactly the devices of that type,
    there is an entry for no other type, and the entries add up to the reported totals.
   */
  method NewStorageMedia(disks: seq<BlockDevice>, typeOf: BlockDevice -> string) returns (m: StorageMedia)
    ensures forall t :: t in m.diskTypes <==> exists i :: 0 <= i < |disks| && typeOf(disks[i]) == t
    ensures forall t :: Entry(m.diskTypes, t) == OfType(disks, typeOf, t)
    ensures m.count == |disks| && m.totalCapacity == TotalSize(disks) * BYTES_PER_SECTOR
    ensures Total(m.diskTypes) == DiskTypeInfo(m.count, m.totalCapacity)
  {
    var diskTypes: Report := map[];
    var sectors := 0;
    for i := 0 to |disks|
      invariant forall t :: t in diskTypes <==> exists k :: 0 <= k < i && typeOf(disks[k]) == t
      invariant forall t :: Entry(diskTypes, t) == OfType(disks[..i], typeOf, t)
      invariant sectors == TotalSize(disks[..i])
      invariant Total(diskTypes) == DiskTypeInfo(i, sectors * BYTES_PER_SECTOR)
    {
      var device := disks[i];
      assert disks[..i + 1][..i] == disks[..i];
      var info := DiskTypeInfo(1, device.size * BYTES_PER_SECTOR);
      TotalGrows(diskTypes, typeOf(device), info);
      diskTypes := AddTo(diskTypes, typeOf(device), info);
      sectors := sectors + device.size;
    }
    assert disks[..|disks|] == disks;
    m := StorageMedia(|disks|, sectors * BYTES_PER_SECTOR, diskTypes);
  }

  // ---------------------------------------------------------------- managed disks

  /** `part` is at position `i` of `text`. */
  predicate OccursAt(text: string, part: string, i: int) {
    0 <= i && i + |part| <= |text| && text[i..i + |part|] == part
  }

  lemma {:induction false} OccursInTail(text: string, part: string, i: int)
    requires text != ""
    ensures OccursAt(text, part, i + 1) && i >= 0 <==> OccursAt(text[1..], part, i)
  {
    if 0 <= i && i + 1 + |part| <= |text| {
      assert text[1..][i..i + |part|] == text[i + 1..i + 1 + |part|];
    }
  }

  function Contains(text: string, part: string): (r: bool)
    ensures r <==> exists i :: OccursAt(text, part, i)
  {
    if OccursAt(text, part, 0) then true
    else if text == "" then assert forall i :: OccursAt(text, part, i) ==> i == 0; false
    else
      assert forall i :: OccursAt(text, part, i) ==> i != 0 && OccursAt(text[1..], part, i - 1) by {
        forall i | OccursAt(text, part, i) ensures i != 0 && OccursAt(text[1..], part, i - 1) {
          OccursInTail(text, part, i - 1);
        }
      }
      assert forall i :: OccursAt(text[1..], part, i) ==> OccursAt(text, part, i + 1) by {
        forall i | OccursAt(text[1..], part, i) ensures OccursAt(text, part, i + 1) {
          OccursInTail(text, part, i);
        }
      }
      Contains(text[1..], part)
  }

  /** The position of the first `part` in `text`, or the length of `text`. */
  function IndexOf(text: string, part: string): (i: nat)
    requires part != ""
    ensures i <= |text| && (i < |text| ==> OccursAt(text, part, i))
    ensures forall j :: 0 <= j < i ==> !OccursAt(text, part, j)
  {
    if text == "" || OccursAt(text, part, 0) then 0
    else
      var i := IndexOf(text[1..], part);
      assert i < |text| - 1 ==> OccursAt(text, part, i + 1) by { OccursInTail(text, part, i); }
      assert forall j :: 0 <= j < i + 1 ==> !OccursAt(text, part, j) by {
        forall j | 0 < j < i + 1 ensures !OccursAt(text, part, j) {
          OccursInTail(text, part, j - 1);
        }
      }
      1 + i
  }

  /** What follows the last `separator` in `text`. */
  function AfterLast(text: string, separator: string): string
    requires separator != ""
    decreases |text|
  {
    var i := IndexOf(text, separator);
    if i == |text| then text else AfterLast(text[i + |separator|..], separator)
  }

  predicate EndsWith(text: string, part: string) {
    |part| <= |text| && text[|text| - |part|..] == part
  }

  lemma {:induction false} EndsAppended(front: string, text: string, part: string, all: string)
    requires EndsWith(text, part) && all == front + text
    ensures EndsWith(all, part)
  {
    assert all[|all| - |part|..] == text[|text| - |part|..];
  }

  predicate Free(text: string, part: string) {
    forall j :: 0 <= j < |text| ==> !OccursAt(text, part, j)
  }

  /** `rest` is `AfterLast(text, separator)`; the quantifier over one value only keeps the recursion folded. */
  ghost predicate Leaves(text: string, separator: string, rest: string)
    requires separator != ""
  {
    forall t: string :: t == text ==> AfterLast(t, separator) == rest
  }

  /** The text up to the end of the first separator, if there is one. */
  lemma {:induction false} FirstSeparator(text: string, separator: string, rest: string) returns (head: string, tail: string)
    requires separator != "" && Leaves(text, separator, rest)
    ensures text == head + tail
    ensures head == "" ==> rest == text && Free(rest, separator)
    ensures head != "" ==> EndsWith(head, separator) && Leaves(tail, separator, rest)
  {
    assert AfterLast(text, separator) == rest;
    var i := IndexOf(text, separator);
    if i == |text| {
      head, tail := "", text;
    } else {
      var from := i + |separator|;
      head, tail := text[..from], text[from..];
      assert head[i..] == text[i..from];
    }
  }

  lemma {:induction false} Split(text: string, separator: string, rest: string) returns (front: string)
    requires separator != "" && Leaves(text, separator, rest)
    ensures text == front + rest && (front == "" || EndsWith(front, separator)) && Free(rest, separator)
    decreases |text|
  {
    var head, tail := FirstSeparator(text, separator, rest);
    if head == "" {
      front := "";
    } else {
      var middle := Split(tail, separator, rest);
      front := head + middle;
      if middle == "" {
        assert front == head;
      } else {
        EndsAppended(head, middle, separator, front);
      }
    }
  }

  /**
    What follows the last separator ends the text, has no separator itself, and comes right
    after one, unless it is all of the text.
   */
  lemma {:induction false} AfterLastSplits(text: string, separator: string) returns (front: string)
    requires separator != ""
    ensures text == front + AfterLast(text, separator) && (front == "" || EndsWith(front, separator))
    ensures Free(AfterLast(text, separator), separator)
  {
    front := Split(text, separator, AfterLast(text, separator));
  }

  /** What comes before the first `stop` in `text`. */
  function UpTo(text: string, stop: char): (r: string)
    ensures r <= text && stop !in r && (r == text || text[|r|] == stop)
  {
    if text == "" || text[0] == stop then "" else [text[0]] + UpTo(text[1..], stop)
  }

  /** The device path of a pool disk, without its protocol and its query. */
  function DevicePath(entry: string): (path: string)
    ensures path <= AfterLast(entry, "://") && '?' !in path
    ensures path == AfterLast(entry, "://") || AfterLast(entry, "://")[|path|] == '?'
  {
    UpTo(AfterLast(entry, "://"), '?')
  }

  /** The first device that satisfies `wanted`. */
  function Find(disks: seq<BlockDevice>, wanted: BlockDevice -> bool): (r: Option<BlockDevice>)
    ensures r.Some? ==> r.value in disks && wanted(r.value)
    ensures r.Some? ==> exists i :: 0 <= i < |disks| && disks[i] == r.value && wanted(disks[i]) && forall j :: 0 <= j < i ==> !wanted(disks[j])
    ensures r.None? <==> forall d :: d in disks ==> !wanted(d)
  {
    if disks == [] then None
    else if wanted(disks[0]) then Some(disks[0])
    else
      var rest := disks[1..];
      var r := Find(rest, wanted);
      assert r.Some? ==> exists i :: 0 <= i < |disks| && disks[i] == r.value && wanted(disks[i]) && forall j :: 0 <= j < i ==> !wanted(disks[j]) by {
        if r.Some? {
          var i :| 0 <= i < |rest| && rest[i] == r.value && wanted(rest[i]) && forall j :: 0 <= j < i ==> !wanted(rest[j]);
          assert disks[i + 1] == r.value;
          assert forall j :: 0 <= j < i + 1 ==> !wanted(disks[j]) by {
            assert forall j :: 1 <= j < i + 1 ==> disks[j] == rest[j - 1];
          }
        }
      }
      r
  }

  /** The device that a pool disk names: by one of its links, or as part of its name. */
  function GetBdev(disks: seq<BlockDevice>, poolDisk: string): Option<BlockDevice> {
    var devicePath := DevicePath(poolDisk);
    Find(disks, (d: BlockDevice) => devicePath in d.devlinks || Contains(d.devname, devicePath))
  }

  /** `disks[i]` is the first of `disks` that has `path` as a link or as part of its name. */
  predicate FirstNamed(disks: seq<BlockDevice>, path: string, i: int) {
    && 0 <= i < |disks| && IsNamed(disks[i], path)
    && forall j :: 0 <= j < i ==> !IsNamed(disks[j], path)
  }

  predicate IsNamed(d: BlockDevice, path: string) {
    path in d.devlinks || Contains(d.devname, path)
  }

  /** `disks[i]` is the first of `disks` whose name contains `name`. */
  predicate FirstContaining(disks: seq<BlockDevice>, name: string, i: int) {
    && 0 <= i < |disks| && Contains(disks[i].devname, name)
    && forall j :: 0 <= j < i ==> !Contains(disks[j].devname, name)
  }

  /** The first device whose name contains `name`. */
  function Parent(disks: seq<BlockDevice>, name: string): (r: Option<BlockDevice>)
    ensures r.Some? ==> exists k :: FirstContaining(disks, name, k) && disks[k] == r.value
    ensures r.None? <==> forall d :: d in disks ==> !Contains(d.devname, name)
  {
    var r := Find(disks, (p: BlockDevice) => Contains(p.devname, name));
    assert r.Some? ==> exists k :: FirstContaining(disks, name, k) && disks[k] == r.value by {
      if r.Some? {
        var k :| 0 <= k < |disks| && disks[k] == r.value && Contains(disks[k].devname, name)
                 && forall j :: 0 <= j < k ==> !Contains(disks[j].devname, name);
        assert FirstContaining(disks, name, k);
      }
    }
    r
  }

  /** A partition counts as the disk it is on, if that is listed. */
  function WholeDisk(disks: seq<BlockDevice>, d: BlockDevice): BlockDevice {
    if d.partition.None? then d
    else
      var parent := Parent(disks, d.partition.value.name);
      if parent.Some? then parent.value else d
  }

  /** A pool's state: the node it is on, its disks as device URIs, and its capacity. */
  datatype PoolState = PoolState(node: string, disks: seq<string>, capacity: nat)

  datatype Pool = Pool(state: Option<PoolState>)

  type NodeDisks = map<string, seq<BlockDevice>>

  /** What a pool contributes to the report. */
  datatype Share =
    | Nothing
    | OnDevice(node: string, devname: string, diskType: string, capacity: nat)
    | OnUnknownDevice(diskType: string, capacity: nat)

  /** A pool counts when it has a state, a known node and a disk; only its first disk matters. */
  function ShareOf(p: Pool, nodeDisks: NodeDisks, typeOf: BlockDevice -> string, schemeType: string -> string): (s: Share)
    ensures s.Nothing? <==> p.state.None? || p.state.value.node !in nodeDisks || p.state.value.disks == []
    ensures !s.Nothing? ==> s.capacity == p.state.value.capacity
    ensures s.OnDevice? ==> s.node == p.state.value.node
                            && exists d :: d in nodeDisks[s.node] && d.devname == s.devname && typeOf(d) == s.diskType
  {
    if p.state.None? || p.state.value.node !in nodeDisks || p.state.value.disks == [] then Nothing
    else
      var state := p.state.value;
      var disks := nodeDisks[state.node];
      var bdev := GetBdev(disks, state.disks[0]);
      if bdev.Some? then
        var disk := WholeDisk(disks, bdev.value);
        OnDevice(state.node, disk.devname, typeOf(disk), state.capacity)
      else OnUnknownDevice(schemeType(state.disks[0]), state.capacity)
  }

  /** `disk` is the disk of device `d`: the first that a partition's parent names, if there is one, and `d` itself otherwise. */
  ghost predicate IsDiskOf(disks: seq<BlockDevice>, d: BlockDevice, disk: BlockDevice) {
    || (d.partition.Some? && exists k :: FirstContaining(disks, d.partition.value.name, k) && disks[k] == disk)
    || (disk == d && (d.partition.Some? ==> forall p :: p in disks ==> !Contains(p.devname, d.partition.value.name)))
  }

  lemma {:induction false} BdevIsFirstNamed(disks: seq<BlockDevice>, poolDisk: string)
    ensures var path := DevicePath(poolDisk);
            && (GetBdev(disks, poolDisk).None? <==> forall d :: d in disks ==> !IsNamed(d, path))
            && (GetBdev(disks, poolDisk).Some? ==> exists i :: FirstNamed(disks, path, i) && disks[i] == GetBdev(disks, poolDisk).value)
  {
    var path := DevicePath(poolDisk);
    var r := GetBdev(disks, poolDisk);
    if r.Some? {
      var i :| 0 <= i < |disks| && disks[i] == r.value && IsNamed(disks[i], path) && forall j :: 0 <= j < i ==> !IsNamed(disks[j], path);
      assert FirstNamed(disks, path, i);
    }
  }

  lemma {:induction false} WholeDiskIsDisk(disks: seq<BlockDevice>, d: BlockDevice)
    ensures IsDiskOf(disks, d, WholeDisk(disks, d))
  {
  }

  /**
    Where the share of a pool goes: to the disk of the first device of its node that has the
    path of the pool's first disk as a link or in its name; if there is none, to no device,
    under the type of the path's scheme.
   */
  lemma {:induction false} ShareResolves(p: Pool, nodeDisks: NodeDisks, typeOf: BlockDevice -> string, schemeType: string -> string)
    requires p.state.Some? && p.state.value.node in nodeDisks && p.state.value.disks != []
    ensures var s := ShareOf(p, nodeDisks, typeOf, schemeType);
            var disks, uri := nodeDisks[p.state.value.node], p.state.value.disks[0];
            var path := DevicePath(uri);
            && (s.OnUnknownDevice? <==> forall d :: d in disks ==> !IsNamed(d, path))
            && (s.OnUnknownDevice? ==> s.diskType == schemeType(uri))
            && (s.OnDevice? ==> exists i, disk ::
                  FirstNamed(disks, path, i) && IsDiskOf(disks, disks[i], disk) && s.devname == disk.devname && s.diskType == typeOf(disk))
  {
    var disks, uri := nodeDisks[p.state.value.node], p.state.value.disks[0];
    BdevIsFirstNamed(disks, uri);
    var bdev := GetBdev(disks, uri);
    if bdev.Some? {
      WholeDiskIsDisk(disks, bdev.value);
    }
  }

  function SharesOf(pools: seq<Pool>, nodeDisks: NodeDisks, typeOf: BlockDevice -> string, schemeType: string -> string): (s: seq<Share>)
    ensures |s| == |pools|
    ensures forall i :: 0 <= i < |pools| ==> s[i] == ShareOf(pools[i], nodeDisks, typeOf, schemeType)
  {
    seq(|pools|, i requires 0 <= i < |pools| => ShareOf(pools[i], nodeDisks, typeOf, schemeType))
  }

  /** The capacity of all pools that count. */
  function CapacityOf(shares: seq<Share>): nat {
    if shares == [] then 0
    else
      var n := |shares| - 1;
      CapacityOf(shares[..n]) + if shares[n].Nothing? then 0 else shares[n].capacity
  }

  /** The distinct devices that pools resolve to, each on its node. */
  function DevicesOf(shares: seq<Share>): set<(string, string)> {
    set s | s in shares && s.OnDevice? :: (s.node, s.devname)
  }

  /** The number of pools whose device cannot be resolved. */
  function UnknownIn(shares: seq<Share>): nat {
    if shares == [] then 0
    else
      var n := |shares| - 1;
      UnknownIn(shares[..n]) + if shares[n].OnUnknownDevice? then 1 else 0
  }

  /** Adds one share to a report; a device counts once. */
  function AddShare(r: Report, counted: set<(string, string)>, s: Share): Report {
    match s
    case Nothing => r
    case OnDevice(node, devname, t, capacity) =>
      AddTo(r, t, DiskTypeInfo(if (node, devname) in counted then 0 else 1, capacity))
    case OnUnknownDevice(t, capacity) => AddTo(r, t, DiskTypeInfo(1, capacity))
  }

  /** The device of a share, as a set. */
  function DeviceOf(s: Share): set<(string, string)> {
    if s.OnDevice? then {(s.node, s.devname)} else {}
  }

  lemma {:induction false} DevicesGrow(shares: seq<Share>, s: Share)
    ensures DevicesOf(shares + [s]) == DevicesOf(shares) + DeviceOf(s)
  {
    var all := shares + [s];
    forall d | d in DevicesOf(all) ensures d in DevicesOf(shares) + DeviceOf(s) {
      var x :| x in all && x.OnDevice? && d == (x.node, x.devname);
      assert x in shares || x == s;
    }
    forall d | d in DevicesOf(shares) ensures d in DevicesOf(all) {
      var x :| x in shares && x.OnDevice? && d == (x.node, x.devname);
      assert x in all;
    }
    assert s in all;
  }

  lemma {:induction false} SumsGrow(shares: seq<Share>, s: Share)
    ensures UnknownIn(shares + [s]) == UnknownIn(shares) + if s.OnUnknownDevice? then 1 else 0
    ensures CapacityOf(shares + [s]) == CapacityOf(shares) + if s.Nothing? then 0 else s.capacity
  {
    assert (shares + [s])[..|shares|] == shares;
  }

  lemma {:induction false} TotalAfterShare(r: Report, counted: set<(string, string)>, s: Share)
    ensures Total(AddShare(r, counted, s)).capacity == Total(r).capacity + (if s.Nothing? then 0 else s.capacity)
    ensures Total(AddShare(r, counted, s)).count ==
            Total(r).count + |counted + DeviceOf(s)| - |counted| + (if s.OnUnknownDevice? then 1 else 0)
  {
    match s {
      case Nothing =>
        assert counted + {} == counted;
      case OnDevice(node, devname, t, capacity) =>
        TotalGrows(r, t, DiskTypeInfo(if (node, devname) in counted then 0 else 1, capacity));
        if (node, devname) in counted {
          assert counted + {(node, devname)} == counted;
        }
      case OnUnknownDevice(t, capacity) =>
        TotalGrows(r, t, DiskTypeInfo(1, capacity));
        assert counted + {} == counted;
    }
  }

  /** What the report amounts to once the shares seen so far are in it. */
  ghost predicate Accounts(r: Report, counted: set<(string, string)>, seen: seq<Share>) {
    && counted == DevicesOf(seen)
    && Total(r).count == |counted| + UnknownIn(seen)
    && Total(r).capacity == CapacityOf(seen)
  }

  lemma {:induction false} ShareAccounted(r: Report, counted: set<(string, string)>, seen: seq<Share>, s: Share)
    requires Accounts(r, counted, seen)
    ensures Accounts(AddShare(r, counted, s), counted + DeviceOf(s), seen + [s])
  {
    DevicesGrow(seen, s);
    SumsGrow(seen, s);
    TotalAfterShare(r, counted, s);
  }

  // ---------------------------------------------------------------- per type

  /** The share at `i` is the first on its device, or on a device of its own. */
  predicate CountsAt(shares: seq<Share>, i: nat)
    requires i < |shares|
  {
    !shares[i].Nothing? && DeviceOf(shares[i]) !! DevicesOf(shares[..i])
  }

  /** The shares that count as disks of type `t`. */
  function DisksOfType(shares: seq<Share>, t: string): set<nat> {
    set i: nat | i < |shares| && CountsAt(shares, i) && shares[i].diskType == t
  }

  function CapacityOfType(shares: seq<Share>, t: string): nat {
    if shares == [] then 0
    else
      var n := |shares| - 1;
      CapacityOfType(shares[..n], t) + if !shares[n].Nothing? && shares[n].diskType == t then shares[n].capacity else 0
  }

  lemma {:induction false} DisksOfTypeGrow(shares: seq<Share>, s: Share, t: string)
    ensures DisksOfType(shares + [s], t) ==
            DisksOfType(shares, t) +
            if !s.Nothing? && DeviceOf(s) !! DevicesOf(shares) && s.diskType == t then {|shares| as nat} else {}
  {
    var all := shares + [s];
    assert all[..|shares|] == shares;
    assert forall i :: 0 <= i < |shares| ==> all[..i] == shares[..i] && all[i] == shares[i];
  }

  lemma {:induction false} TypeGrows(shares: seq<Share>, s: Share, t: string)
    ensures CapacityOfType(shares + [s], t) == CapacityOfType(shares, t) + if !s.Nothing? && s.diskType == t then s.capacity else 0
    ensures |DisksOfType(shares + [s], t)| ==
            |DisksOfType(shares, t)| + if !s.Nothing? && DeviceOf(s) !! DevicesOf(shares) && s.diskType == t then 1 else 0
  {
    assert (shares + [s])[..|shares|] == shares;
    DisksOfTypeGrow(shares, s, t);
  }

  lemma {:induction false} EntryAfterShare(r: Report, seen: seq<Share>, s: Share, t: string)
    requires Entry(r, t) == DiskTypeInfo(|DisksOfType(seen, t)|, CapacityOfType(seen, t))
    ensures Entry(AddShare(r, DevicesOf(seen), s), t) ==
            DiskTypeInfo(|DisksOfType(seen + [s], t)|, CapacityOfType(seen + [s], t))
  {
    TypeGrows(seen, s, t);
    if s.OnDevice? {
      assert DeviceOf(s) !! DevicesOf(seen) <==> (s.node, s.devname) !in DevicesOf(seen);
    }
  }

  /** The loop over what the pools contribute. */
  method AddShares(shares: seq<Share>) returns (diskTypes: Report)
    ensures Total(diskTypes).capacity == CapacityOf(shares)
    ensures Total(diskTypes).count == |DevicesOf(shares)| + UnknownIn(shares)
    ensures forall t :: Entry(diskTypes, t) == DiskTypeInfo(|DisksOfType(shares, t)|, CapacityOfType(shares, t))
  {
    diskTypes := map[];
    var counted: set<(string, string)> := {};
    for i := 0 to |shares|
      invariant Accounts(diskTypes, counted, shares[..i])
      invariant forall t :: Entry(diskTypes, t) == DiskTypeInfo(|DisksOfType(shares[..i], t)|, CapacityOfType(shares[..i], t))
    {
      ShareAccounted(diskTypes, counted, shares[..i], shares[i]);
      assert shares[..i + 1] == shares[..i] + [shares[i]];
      ghost var before := diskTypes;
      diskTypes := AddShare(diskTypes, counted, shares[i]);
      forall t ensures Entry(diskTypes, t) == DiskTypeInfo(|DisksOfType(shares[..i + 1], t)|, CapacityOfType(shares[..i + 1], t)) {
        EntryAfterShare(before, shares[..i], shares[i], t);
      }
      counted := counted + DeviceOf(shares[i]);
    }
    assert shares[..|shares|] == shares;
  }

  /**
    The report on managed disks. Its capacities add up to those of all pools with a state, a
    known node and a disk; its counts to the distinct devices that these resolve to, each on
    its node, plus one for every pool whose device cannot be resolved. Each type's entry
    holds the capacity of the pools of that type and counts a device with the first pool on it.
   */
  method NewMayastorManagedDisks(pools: seq<Pool>, nodeDisks: NodeDisks, typeOf: BlockDevice -> string, schemeType: string -> string)
    returns (diskTypes: Report)
    ensures var shares := SharesOf(pools, nodeDisks, typeOf, schemeType);
            && Total(diskTypes).capacity == CapacityOf(shares)
            && Total(diskTypes).count == |DevicesOf(shares)| + UnknownIn(shares)
            && forall t :: Entry(diskTypes, t) == DiskTypeInfo(|DisksOfType(shares, t)|, CapacityOfType(shares, t))
  {
    diskTypes := AddShares(SharesOf(pools, nodeDisks, typeOf, schemeType));
  }
}
