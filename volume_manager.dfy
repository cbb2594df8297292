/**
 * The Files app's volume registry on Chrome OS.
 *
 * `VolumeManager` keeps `mounted_volumes_`, a map from volume id to the
 * description of a mounted volume, and updates it on mount and unmount
 * events, filtering archives that do not come from this profile's volumes
 * and removable disks forbidden by policy.  Volume ids are the volume
 * type's name, a colon and the mount path's base name; MTP devices get a
 * numbered id when their name is taken.  At start-up, archives are mounted
 * chain by chain so that an archive stored inside another archive is
 * mounted after it.
 *
 * File paths are sequences of components; preferences, observers,
 * histograms and the system's mount-point registry are left out, and the
 * profile path and the external-storage policy are fields.
 */
module VolumeManager {
  import opened Wrappers
  import opened Strings

  datatype VolumeType =
    | GoogleDrive
    | DownloadsDirectory
    | RemovableDiskPartition
    | MountedArchiveFile
    | CloudDevice
    | Provided
    | Mtp
    | Testing

  /** chromeos::MountType. */
  datatype MountType = MountTypeInvalid | MountTypeDevice | MountTypeArchive

  /** chromeos::DeviceType. */
  datatype DeviceType = DeviceUnknown | DeviceUsb | DeviceSd | DeviceOpticalDisc | DeviceMobile | DeviceDvd

  /** chromeos::disks::MountCondition; only `ConditionNone` is zero. */
  datatype MountCondition = ConditionNone | UnknownFilesystem | UnsupportedFilesystem

  /** chromeos::MountError, reduced to "no error" and the failure codes. */
  datatype MountError = MountErrorNone | MountErrorFailed(code: nat)

  /** A file path as its sequence of components. */
  datatype FilePath = FilePath(components: seq<string>)

  const EmptyPath := FilePath([])

  /** The last component, or the empty string for the empty path. */
  function BaseName(p: FilePath): (name: string)
    ensures p.components != [] ==> name == p.components[|p.components| - 1]
    ensures p.components == [] ==> name == ""
  {
    if p.components == [] then "" else p.components[|p.components| - 1]
  }

  /** `parent.IsParent(child)`: `parent` is a proper prefix of `child`. */
  predicate IsParent(parent: FilePath, child: FilePath)
  {
    |parent.components| < |child.components| && child.components[..|parent.components|] == parent.components
  }

  datatype VolumeInfo = VolumeInfo(
    volumeId: string,
    fileSystemId: int,
    extensionId: string,
    volumeType: VolumeType,
    deviceType: DeviceType,
    sourcePath: FilePath,
    mountPath: FilePath,
    systemPathPrefix: FilePath,
    mountCondition: MountCondition,
    isParent: bool,
    isReadOnly: bool,
    volumeLabel: string)

  /** What the default constructor of VolumeInfo leaves in every field. */
  const DefaultVolumeInfo := VolumeInfo("", 0, "", GoogleDrive, DeviceUnknown, EmptyPath, EmptyPath, EmptyPath,
                                        ConditionNone, false, false, "")

  // ---------------------------------------------------------------------
  // Types and ids
  // ---------------------------------------------------------------------

  /** Maps a disk mount type to the volume type; the unexpected INVALID falls back to DOWNLOADS_DIRECTORY. */
  function MountTypeToVolumeType(t: MountType): (v: VolumeType)
    ensures t == MountTypeDevice ==> v == RemovableDiskPartition
    ensures t == MountTypeArchive ==> v == MountedArchiveFile
    ensures t == MountTypeInvalid ==> v == DownloadsDirectory
  {
    match t
    case MountTypeInvalid => DownloadsDirectory
    case MountTypeDevice => RemovableDiskPartition
    case MountTypeArchive => MountedArchiveFile
  }

  /** The two real mount types map to different volume types, neither of which is the fallback. */
  lemma MountTypeToVolumeTypeInjective(a: MountType, b: MountType)
    requires a != MountTypeInvalid && b != MountTypeInvalid
    ensures MountTypeToVolumeType(a) == MountTypeToVolumeType(b) <==> a == b
    ensures MountTypeToVolumeType(a) != DownloadsDirectory
  {
  }

  function VolumeTypeToString(t: VolumeType): (s: string)
    ensures s != [] && ':' !in s
  {
    match t
    case GoogleDrive => "drive"
    case DownloadsDirectory => "downloads"
    case RemovableDiskPartition => "removable"
    case MountedArchiveFile => "archive"
    case CloudDevice => "cloud_device"
    case Provided => "provided"
    case Mtp => "mtp"
    case Testing => "testing"
  }

  /** The inverse of `VolumeTypeToString`. */
  function VolumeTypeFromString(s: string): Option<VolumeType>
  {
    if s == "drive" then Some(GoogleDrive)
    else if s == "downloads" then Some(DownloadsDirectory)
    else if s == "removable" then Some(RemovableDiskPartition)
    else if s == "archive" then Some(MountedArchiveFile)
    else if s == "cloud_device" then Some(CloudDevice)
    else if s == "provided" then Some(Provided)
    else if s == "mtp" then Some(Mtp)
    else if s == "testing" then Some(Testing)
    else None
  }

  /** Every volume type's name reads back as that type, so distinct types have distinct names. */
  lemma VolumeTypeStringRoundTrip(t: VolumeType)
    ensures VolumeTypeFromString(VolumeTypeToString(t)) == Some(t)
  {
  }

  lemma VolumeTypeToStringInjective(a: VolumeType, b: VolumeType)
    ensures VolumeTypeToString(a) == VolumeTypeToString(b) <==> a == b
  {
    VolumeTypeStringRoundTrip(a);
    VolumeTypeStringRoundTrip(b);
  }

  /** `GenerateVolumeId`: the type's name, a colon, and the mount path's base name. */
  function GenerateVolumeId(v: VolumeInfo): (id: string)
    ensures |id| == |VolumeTypeToString(v.volumeType)| + 1 + |BaseName(v.mountPath)|
  {
    VolumeTypeToString(v.volumeType) + ":" + BaseName(v.mountPath)
  }

  /** Index of the first colon in `s`, if any. */
  /** Splits a volume id back into its volume type and base name. */
  function ParseVolumeId(id: string): Option<(VolumeType, string)>
  {
    match FirstIndex(id, ':')
    case None => None
    case Some(i) =>
      match VolumeTypeFromString(id[..i])
      case None => None
      case Some(t) => Some((t, id[i + 1..]))
  }

  /** A generated id determines the volume type and the base name it was built from. */
  lemma {:induction false} VolumeIdRoundTrip(v: VolumeInfo)
    ensures ParseVolumeId(GenerateVolumeId(v)) == Some((v.volumeType, BaseName(v.mountPath)))
  {
    var t := VolumeTypeToString(v.volumeType);
    var id := GenerateVolumeId(v);
    FirstIndexAfter(t, ':', BaseName(v.mountPath));
    assert id[..|t|] == t && id[|t| + 1..] == BaseName(v.mountPath);
    VolumeTypeStringRoundTrip(v.volumeType);
  }

  /** Two volumes get the same id only when their types and mount-path base names agree. */
  lemma VolumeIdInjective(a: VolumeInfo, b: VolumeInfo)
    ensures GenerateVolumeId(a) == GenerateVolumeId(b) <==>
            a.volumeType == b.volumeType && BaseName(a.mountPath) == BaseName(b.mountPath)
  {
    VolumeIdRoundTrip(a);
    VolumeIdRoundTrip(b);
  }

  /** The volume's id is the one `GenerateVolumeId` gives it. */
  predicate HasGeneratedId(v: VolumeInfo)
  {
    v.volumeId == GenerateVolumeId(v)
  }

  // ---------------------------------------------------------------------
  // Volume descriptions
  // ---------------------------------------------------------------------

  function CreateDriveVolumeInfo(drivePath: FilePath): (v: VolumeInfo)
    ensures HasGeneratedId(v) && v.volumeType == GoogleDrive
    ensures v.sourcePath == drivePath && v.mountPath == drivePath
    ensures !v.isParent && !v.isReadOnly && v.mountCondition == ConditionNone
  {
    var v := DefaultVolumeInfo.(volumeType := GoogleDrive, deviceType := DeviceUnknown,
                                sourcePath := drivePath, mountPath := drivePath,
                                mountCondition := ConditionNone, isParent := false, isReadOnly := false);
    v.(volumeId := GenerateVolumeId(v))
  }

  function CreateDownloadsVolumeInfo(downloadsPath: FilePath): (v: VolumeInfo)
    ensures HasGeneratedId(v) && v.volumeType == DownloadsDirectory
    ensures v.sourcePath == EmptyPath && v.mountPath == downloadsPath
    ensures !v.isParent && !v.isReadOnly
  {
    var v := DefaultVolumeInfo.(volumeType := DownloadsDirectory, deviceType := DeviceUnknown,
                                mountPath := downloadsPath, mountCondition := ConditionNone,
                                isParent := false, isReadOnly := false);
    v.(volumeId := GenerateVolumeId(v))
  }

  function CreateTestingVolumeInfo(path: FilePath, volumeType: VolumeType, deviceType: DeviceType): (v: VolumeInfo)
    ensures HasGeneratedId(v) && v.volumeType == volumeType && v.deviceType == deviceType
    ensures v.sourcePath == EmptyPath && v.mountPath == path
    ensures !v.isParent && !v.isReadOnly
  {
    var v := DefaultVolumeInfo.(volumeType := volumeType, deviceType := deviceType, mountPath := path,
                                mountCondition := ConditionNone, isParent := false, isReadOnly := false);
    v.(volumeId := GenerateVolumeId(v))
  }

  /** A mount point reported by the disk mount manager. */
  datatype MountPointInfo = MountPointInfo(sourcePath: FilePath, mountPath: FilePath, mountType: MountType,
                                           mountCondition: MountCondition)

  /** The disk behind a mount point, when the disk mount manager knows it. */
  datatype Disk = Disk(deviceType: DeviceType, systemPathPrefix: FilePath, driveLabel: string,
                       isParent: bool, isReadOnly: bool)

  /**
   * Describes a disk or archive mount point.  Without a disk, only
   * archives are read-only.
   */
  function CreateVolumeInfoFromMountPointInfo(mountPoint: MountPointInfo, disk: Option<Disk>): (v: VolumeInfo)
    ensures HasGeneratedId(v)
    ensures v.volumeType == MountTypeToVolumeType(mountPoint.mountType)
    ensures v.sourcePath == mountPoint.sourcePath && v.mountPath == mountPoint.mountPath
    ensures v.mountCondition == mountPoint.mountCondition
    ensures disk.Some? ==>
              && v.deviceType == disk.value.deviceType && v.isParent == disk.value.isParent
              && v.isReadOnly == disk.value.isReadOnly && v.volumeLabel == disk.value.driveLabel
    ensures disk.None? ==>
              && v.deviceType == DeviceUnknown && !v.isParent
              && (v.isReadOnly <==> mountPoint.mountType == MountTypeArchive)
  {
    var base := DefaultVolumeInfo.(volumeType := MountTypeToVolumeType(mountPoint.mountType),
                                   sourcePath := mountPoint.sourcePath, mountPath := mountPoint.mountPath,
                                   mountCondition := mountPoint.mountCondition);
    var v :=
      match disk
      case Some(d) =>
        base.(deviceType := d.deviceType, systemPathPrefix := d.systemPathPrefix, volumeLabel := d.driveLabel,
              isParent := d.isParent, isReadOnly := d.isReadOnly)
      case None =>
        base.(deviceType := DeviceUnknown, isParent := false,
              isReadOnly := mountPoint.mountType == MountTypeArchive);
    v.(volumeId := GenerateVolumeId(v))
  }

  function CreatePrivetVolumeInfo(volumePath: FilePath): (v: VolumeInfo)
    ensures HasGeneratedId(v) && v.volumeType == CloudDevice && v.mountPath == volumePath
    ensures v.isParent && v.isReadOnly
  {
    var v := DefaultVolumeInfo.(volumeType := CloudDevice, mountPath := volumePath,
                                mountCondition := ConditionNone, isParent := true, isReadOnly := true);
    v.(volumeId := GenerateVolumeId(v))
  }

  /** A file system registered by an extension. */
  datatype ProvidedFileSystemInfo = ProvidedFileSystemInfo(fileSystemId: int, extensionId: string,
                                                           fileSystemName: string, mountPath: FilePath)

  function CreateProvidedFileSystemVolumeInfo(info: ProvidedFileSystemInfo): (v: VolumeInfo)
    ensures HasGeneratedId(v) && v.volumeType == Provided && v.mountPath == info.mountPath
    ensures v.fileSystemId == info.fileSystemId && v.extensionId == info.extensionId
    ensures v.volumeLabel == info.fileSystemName
    ensures v.isParent && v.isReadOnly
  {
    var v := DefaultVolumeInfo.(fileSystemId := info.fileSystemId, extensionId := info.extensionId,
                                volumeLabel := info.fileSystemName, volumeType := Provided,
                                mountPath := info.mountPath, mountCondition := ConditionNone,
                                isParent := true, isReadOnly := true);
    v.(volumeId := GenerateVolumeId(v))
  }

  // ---------------------------------------------------------------------
  // MTP volume ids
  // ---------------------------------------------------------------------

  const MtpVolumeIdPrefix := "mtp:"

  /**
   * The id tried for an MTP device at step `ordinal`: the bare name at
   * step 1, and the name followed by " (ordinal)" from step 2 on.
   */
  function MtpVolumeIdCandidate(baseName: string, ordinal: nat): string
  {
    if ordinal <= 1 then MtpVolumeIdPrefix + baseName
    else MtpVolumeIdPrefix + baseName + " (" + Decimal(ordinal) + ")"
  }

  /** Different steps try different ids, so the search never repeats itself. */
  lemma MtpVolumeIdCandidateInjective(baseName: string, i: nat, j: nat)
    requires 1 <= i && 1 <= j && i != j
    ensures MtpVolumeIdCandidate(baseName, i) != MtpVolumeIdCandidate(baseName, j)
  {
    var p := MtpVolumeIdPrefix + baseName + " (";
    if i >= 2 && j >= 2 {
      var a := MtpVolumeIdCandidate(baseName, i);
      var b := MtpVolumeIdCandidate(baseName, j);
      if a == b {
        assert a == p + Decimal(i) + ")";
        assert b == p + Decimal(j) + ")";
        assert |Decimal(i)| == |Decimal(j)|;
        assert Decimal(i) == a[|p|..|a| - 1];
        assert Decimal(j) == b[|p|..|b| - 1];
        DecimalRoundTrip(i);
        DecimalRoundTrip(j);
      }
    } else {
      assert |MtpVolumeIdCandidate(baseName, i)| != |MtpVolumeIdCandidate(baseName, j)|;
    }
  }

  /** Step `ordinal` is the first whose id is not taken in `volumes`. */
  ghost predicate FirstFreeMtpId(volumes: map<string, VolumeInfo>, baseName: string, ordinal: nat)
  {
    && ordinal >= 1
    && MtpVolumeIdCandidate(baseName, ordinal) !in volumes
    && forall j :: 1 <= j < ordinal ==> MtpVolumeIdCandidate(baseName, j) in volumes
  }

  /** The ids tried before step `ordinal`. */
  ghost function TriedMtpIds(baseName: string, ordinal: nat): set<string>
  {
    if ordinal <= 1 then {} else TriedMtpIds(baseName, ordinal - 1) + {MtpVolumeIdCandidate(baseName, ordinal - 1)}
  }

  lemma {:induction false} TriedMtpIdsHold(baseName: string, ordinal: nat, earlier: nat)
    requires 1 <= earlier < ordinal
    ensures MtpVolumeIdCandidate(baseName, earlier) in TriedMtpIds(baseName, ordinal)
  {
    if earlier < ordinal - 1 {
      TriedMtpIdsHold(baseName, ordinal - 1, earlier);
    }
  }

  /** No later step tries an id already tried. */
  lemma {:induction false} UntriedMtpId(baseName: string, ordinal: nat, later: nat)
    requires 1 <= ordinal <= later
    ensures MtpVolumeIdCandidate(baseName, later) !in TriedMtpIds(baseName, ordinal)
  {
    if ordinal > 1 {
      UntriedMtpId(baseName, ordinal - 1, later);
      MtpVolumeIdCandidateInjective(baseName, ordinal - 1, later);
    }
  }

  // ---------------------------------------------------------------------
  // Archive mount order
  // ---------------------------------------------------------------------

  /** Archive `parent`'s mount path is a proper ancestor of archive `child`'s file. */
  predicate Holds(archives: seq<VolumeInfo>, parent: int, child: int)
  {
    && 0 <= parent < |archives|
    && 0 <= child < |archives|
    && IsParent(archives[parent].mountPath, archives[child].sourcePath)
  }

  function Reverse<T>(s: seq<T>): (r: seq<T>)
    ensures |r| == |s|
    ensures forall i :: 0 <= i < |s| ==> r[i] == s[|s| - 1 - i]
  {
    if s == [] then [] else Reverse(s[1..]) + [s[0]]
  }

  /** The last element of a chain, or -1 for no chain. */
  function Top(chain: seq<int>): int
  {
    if chain == [] then -1 else chain[|chain| - 1]
  }

  /** The mount order the chains give: each chain from its top down to its start, chain after chain. */
  function MountSequence(chains: seq<seq<int>>): seq<int>
  {
    if chains == [] then [] else MountSequence(chains[..|chains| - 1]) + Reverse(chains[|chains| - 1])
  }

  /** `order` lists each of `0 .. n-1` exactly once. */
  predicate Covers(order: seq<int>, n: nat)
  {
    && |order| == n
    && (forall i :: 0 <= i < |order| ==> 0 <= order[i] < n)
    && (forall k :: 0 <= k < n ==> k in order)
  }

  /** Inside every chain, each archive holds the one before it. */
  ghost predicate ChainsLinked(archives: seq<VolumeInfo>, chains: seq<seq<int>>)
  {
    forall q, j :: 0 <= q < |chains| && 0 < j < |chains[q]| ==> Holds(archives, chains[q][j], chains[q][j - 1])
  }

  /** Every archive that holds the top of a chain is mounted by the end of that chain. */
  ghost predicate TopsClosed(archives: seq<VolumeInfo>, chains: seq<seq<int>>)
  {
    forall q, k :: 0 <= q < |chains| && Holds(archives, k, Top(chains[q])) ==> k in MountSequence(chains[..q + 1])
  }

  function CountTrue(done: seq<bool>): (c: nat)
    ensures c <= |done|
  {
    if done == [] then 0 else CountTrue(done[..|done| - 1]) + (if done[|done| - 1] then 1 else 0)
  }

  lemma {:induction false} CountTrueMark(done: seq<bool>, k: int)
    requires 0 <= k < |done| && !done[k]
    ensures CountTrue(done[k := true]) == CountTrue(done) + 1
    decreases |done|
  {
    var d := done[k := true];
    if k < |done| - 1 {
      assert d[..|d| - 1] == done[..|done| - 1][k := true];
      CountTrueMark(done[..|done| - 1], k);
    } else {
      assert d[..|d| - 1] == done[..|done| - 1];
    }
  }

  lemma {:induction false} CountNoneTrue(n: nat)
    ensures CountTrue(seq(n, _ => false)) == 0
  {
    if n > 0 {
      assert seq(n, _ => false)[..n - 1] == seq(n - 1, _ => false);
      CountNoneTrue(n - 1);
    }
  }

  lemma {:induction false} CountAllTrue(done: seq<bool>)
    requires forall k :: 0 <= k < |done| ==> done[k]
    ensures CountTrue(done) == |done|
  {
    if done != [] {
      CountAllTrue(done[..|done| - 1]);
    }
  }

  lemma {:induction false} MountSequenceAppend(chains: seq<seq<int>>, chain: seq<int>, x: int)
    ensures MountSequence(chains + [chain]) == MountSequence(chains) + Reverse(chain)
    ensures x in MountSequence(chains + [chain]) <==> x in MountSequence(chains) || x in chain
  {
    var cs := chains + [chain];
    assert cs[..|cs| - 1] == chains;
    if x in chain {
      var j :| 0 <= j < |chain| && chain[j] == x;
      assert Reverse(chain)[|chain| - 1 - j] == x;
    }
  }

  /** The archives marked done are exactly those in `order`, and `order` holds only archive indexes. */
  ghost predicate Placed(done: seq<bool>, order: seq<int>)
  {
    && (forall k :: 0 <= k < |done| ==> (done[k] <==> k in order))
    && (forall k :: k in order ==> 0 <= k < |done|)
  }

  lemma PlacedAppend(done0: seq<bool>, done: seq<bool>, order: seq<int>, chain: seq<int>)
    requires |done| == |done0| && Placed(done0, order)
    requires forall k :: 0 <= k < |done| ==> (done[k] <==> done0[k] || k in chain)
    requires forall k :: k in chain ==> 0 <= k < |done|
    ensures Placed(done, order + Reverse(chain))
  {
    forall k | k in order + Reverse(chain)
      ensures 0 <= k < |done|
    {
      if k !in order {
        assert k in Reverse(chain);
        var j :| 0 <= j < |chain| && Reverse(chain)[j] == k;
        assert chain[|chain| - 1 - j] == k;
        assert k in chain;
      } else {
        assert |done0| == |done|;
      }
    }
    forall k | 0 <= k < |done| && k in chain
      ensures k in order + Reverse(chain)
    {
      var j :| 0 <= j < |chain| && chain[j] == k;
      assert Reverse(chain)[|chain| - 1 - j] == k;
    }
  }

  /** Appending a finished chain keeps the chain facts of the outer loop. */
  lemma AppendChain(archives: seq<VolumeInfo>, chains: seq<seq<int>>, chain: seq<int>, done: seq<bool>)
    requires |done| == |archives|
    requires forall j :: 0 < j < |chain| ==> Holds(archives, chain[j], chain[j - 1])
    requires forall k :: 0 <= k < |archives| ==> (done[k] <==> k in MountSequence(chains) || k in chain)
    requires forall k :: Holds(archives, k, Top(chain)) ==> done[k]
    requires ChainsLinked(archives, chains) && TopsClosed(archives, chains)
    ensures ChainsLinked(archives, chains + [chain]) && TopsClosed(archives, chains + [chain])
  {
    var cs := chains + [chain];
    forall q, j | 0 <= q < |cs| && 0 < j < |cs[q]|
      ensures Holds(archives, cs[q][j], cs[q][j - 1])
    {
      if q < |chains| {
        assert cs[q] == chains[q];
      }
    }
    forall q, k | 0 <= q < |cs| && Holds(archives, k, Top(cs[q]))
      ensures k in MountSequence(cs[..q + 1])
    {
      if q < |chains| {
        assert cs[..q + 1] == chains[..q + 1];
      } else {
        assert cs[..q + 1] == cs;
        MountSequenceAppend(chains, chain, k);
      }
    }
  }

  /**
   * What the climb from `start` has built so far: `chain` starts at
   * `start`, each of its archives holds the one before it, and exactly the
   * chain's archives have been marked on top of `done0`.
   */
  ghost predicate Climbed(archives: seq<VolumeInfo>, done0: seq<bool>, done: seq<bool>, chain: seq<int>, start: int)
  {
    && |done0| == |archives| && |done| == |archives|
    && chain != [] && chain[0] == start
    && (forall k :: 0 <= k < |done| ==> (done[k] <==> done0[k] || k in chain))
    && (forall k :: k in chain ==> 0 <= k < |done| && !done0[k])
    && CountTrue(done) == CountTrue(done0) + |chain|
    && (forall j :: 0 < j < |chain| ==> Holds(archives, chain[j], chain[j - 1]))
  }

  lemma ClimbStep(archives: seq<VolumeInfo>, done0: seq<bool>, done: seq<bool>, chain: seq<int>, start: int, parent: int)
    requires Climbed(archives, done0, done, chain, start)
    requires 0 <= parent < |done| && !done[parent] && Holds(archives, parent, Top(chain))
    ensures Climbed(archives, done0, done[parent := true], chain + [parent], start)
  {
    CountTrueMark(done, parent);
  }

  /**
   * The inner loop of the archive ordering: starting from archive `start`,
   * repeatedly appends the first archive not yet placed that holds the
   * chain's top, marking every archive it appends as placed, until no
   * unplaced archive holds the top.
   */
  method ClimbHolders(archives: seq<VolumeInfo>, done0: seq<bool>, start: int) returns (chain: seq<int>, done: seq<bool>)
    requires |done0| == |archives| && 0 <= start < |archives| && !done0[start]
    requires start == 0 || done0[0]
    ensures Climbed(archives, done0, done, chain, start)
    ensures forall k :: Holds(archives, k, Top(chain)) ==> done[k]
  {
    var n := |archives|;
    chain := [start];
    CountTrueMark(done0, start);
    done := done0[start := true];
    var parent := 0;
    while parent < n
      invariant Climbed(archives, done0, done, chain, start)
      invariant done[0]
      invariant forall k :: 0 <= k < parent && Holds(archives, k, Top(chain)) ==> done[k]
      decreases n - CountTrue(done), n - parent
    {
      if !done[parent] && Holds(archives, parent, Top(chain)) {
        ClimbStep(archives, done0, done, chain, start, parent);
        done := done[parent := true];
        chain := chain + [parent];
        parent := 0;
      }
      parent := parent + 1;
    }
  }

  /** What the archive ordering has built after the archives it has started from. */
  ghost predicate Ordered(archives: seq<VolumeInfo>, done: seq<bool>, order: seq<int>, chains: seq<seq<int>>)
  {
    && |done| == |archives|
    && order == MountSequence(chains)
    && Placed(done, order)
    && CountTrue(done) == |order|
    && (forall q :: 0 <= q < |chains| ==> chains[q] != [])
    && ChainsLinked(archives, chains)
    && TopsClosed(archives, chains)
  }

  lemma OrderStep(archives: seq<VolumeInfo>, done0: seq<bool>, done: seq<bool>, order: seq<int>,
                  chains: seq<seq<int>>, chain: seq<int>, start: int)
    requires Ordered(archives, done0, order, chains)
    requires Climbed(archives, done0, done, chain, start)
    requires forall k :: Holds(archives, k, Top(chain)) ==> done[k]
    ensures Ordered(archives, done, order + Reverse(chain), chains + [chain])
    ensures forall k :: 0 <= k < |done| && done0[k] ==> done[k]
    ensures 0 <= start < |done| && done[start]
  {
    assert chain[0] in chain;
    AppendChain(archives, chains, chain, done);
    PlacedAppend(done0, done, order, chain);
    MountSequenceAppend(chains, chain, 0);
  }

  /**
   * The archive-ordering part of `Initialize`: starting from every archive
   * not yet placed, follows the archives that hold it upwards into a chain,
   * and mounts the chain from its top.  As in the source, the scan for a
   * holder restarts from index 1 after each step, which loses nothing
   * because archive 0 is placed by then.
   */
  method ArchiveMountOrder(archives: seq<VolumeInfo>) returns (order: seq<int>, ghost chains: seq<seq<int>>)
    ensures order == MountSequence(chains)
    ensures Covers(order, |archives|)
    ensures forall q :: 0 <= q < |chains| ==> chains[q] != []
    ensures ChainsLinked(archives, chains) && TopsClosed(archives, chains)
  {
    var n := |archives|;
    var done := seq(n, _ => false);
    order, chains := [], [];
    CountNoneTrue(n);
    for i := 0 to n
      invariant Ordered(archives, done, order, chains)
      invariant forall k :: 0 <= k < i ==> done[k]
    {
      if !done[i] {
        var chain;
        ghost var before := done;
        chain, done := ClimbHolders(archives, done, i);
        OrderStep(archives, before, done, order, chains, chain, i);
        order := order + Reverse(chain);
        chains := chains + [chain];
      }
    }
    OrderedCovers(archives, done, order, chains);
  }

  /** Once every archive is placed, the mount order lists each archive exactly once. */
  lemma OrderedCovers(archives: seq<VolumeInfo>, done: seq<bool>, order: seq<int>, chains: seq<seq<int>>)
    requires Ordered(archives, done, order, chains)
    requires forall k :: 0 <= k < |done| ==> done[k]
    ensures Covers(order, |archives|)
  {
    CountAllTrue(done);
    assert forall i :: 0 <= i < |order| ==> order[i] in order;
  }

  // ---------------------------------------------------------------------
  // The registry
  // ---------------------------------------------------------------------

  /**
   * Whether `DoMountEvent` lets `v` through its filters: an archive must
   * lie under the profile directory or under an already-mounted volume,
   * and a removable disk must not be forbidden by policy.
   */
  ghost predicate Admits(volumes: map<string, VolumeInfo>, profilePath: FilePath,
                         externalStorageDisabled: bool, v: VolumeInfo)
  {
    && (v.volumeType == MountedArchiveFile ==>
          IsParent(profilePath, v.sourcePath) ||
          exists id :: id in volumes && IsParent(volumes[id].mountPath, v.sourcePath))
    && !(v.volumeType == RemovableDiskPartition && externalStorageDisabled)
  }

  /** A mount event is recorded when it succeeded or the volume carries a mount condition. */
  predicate Records(error: MountError, v: VolumeInfo)
  {
    error == MountErrorNone || v.mountCondition != ConditionNone
  }

  /** `mounted_volumes_` after a mount event. */
  ghost function AfterMount(volumes: map<string, VolumeInfo>, profilePath: FilePath,
                            externalStorageDisabled: bool, error: MountError, v: VolumeInfo): map<string, VolumeInfo>
  {
    if Admits(volumes, profilePath, externalStorageDisabled, v) && Records(error, v)
    then volumes[v.volumeId := v] else volumes
  }

  /** `mounted_volumes_` after mounting `vs` one after another without error. */
  ghost function AfterMounts(volumes: map<string, VolumeInfo>, profilePath: FilePath,
                             externalStorageDisabled: bool, vs: seq<VolumeInfo>): map<string, VolumeInfo>
  {
    if vs == [] then volumes
    else AfterMount(AfterMounts(volumes, profilePath, externalStorageDisabled, vs[..|vs| - 1]),
                    profilePath, externalStorageDisabled, MountErrorNone, vs[|vs| - 1])
  }

  /**
   * Why archives are mounted holder first: once an admitted archive is
   * mounted, any archive whose file lies under its mount path passes the
   * archive filter.
   */
  lemma HeldArchiveAdmitted(volumes: map<string, VolumeInfo>, profilePath: FilePath, externalStorageDisabled: bool,
                            holder: VolumeInfo, child: VolumeInfo)
    requires Admits(volumes, profilePath, externalStorageDisabled, holder)
    requires IsParent(holder.mountPath, child.sourcePath) && child.volumeType == MountedArchiveFile
    ensures Admits(AfterMount(volumes, profilePath, externalStorageDisabled, MountErrorNone, holder),
                   profilePath, externalStorageDisabled, child)
  {
    var after := AfterMount(volumes, profilePath, externalStorageDisabled, MountErrorNone, holder);
    assert holder.volumeId in after && after[holder.volumeId] == holder;
  }

  class VolumeManager {
    /** `mounted_volumes_`: the mounted volumes by id. */
    var mountedVolumes: map<string, VolumeInfo>
    /** The profile directory. */
    const profilePath: FilePath
    /** The `kExternalStorageDisabled` preference. */
    var externalStorageDisabled: bool

    constructor (profilePath: FilePath, externalStorageDisabled: bool)
      ensures this.profilePath == profilePath && this.externalStorageDisabled == externalStorageDisabled
      ensures mountedVolumes == map[]
    {
      this.profilePath := profilePath;
      this.externalStorageDisabled := externalStorageDisabled;
      mountedVolumes := map[];
    }

    /** `FindVolumeInfoById`: the volume mounted under `volumeId`, if any. */
    method FindVolumeInfoById(volumeId: string) returns (found: bool, result: VolumeInfo)
      ensures found <==> volumeId in mountedVolumes
      ensures found ==> result == mountedVolumes[volumeId]
    {
      if volumeId !in mountedVolumes {
        return false, DefaultVolumeInfo;
      }
      return true, mountedVolumes[volumeId];
    }

    /**
     * Records a mounted volume under its id when the filters admit it and
     * the mount succeeded or left a mount condition; nothing else changes.
     * `isRemounting` only selects a histogram.
     */
    method DoMountEvent(error: MountError, v: VolumeInfo, isRemounting: bool)
      modifies this`mountedVolumes
      ensures mountedVolumes == AfterMount(old(mountedVolumes), profilePath, externalStorageDisabled, error, v)
      ensures v.volumeType == RemovableDiskPartition && externalStorageDisabled ==> mountedVolumes == old(mountedVolumes)
      ensures forall id :: id != v.volumeId ==>
                (id in mountedVolumes <==> id in old(mountedVolumes)) &&
                (id in mountedVolumes ==> mountedVolumes[id] == old(mountedVolumes)[id])
    {
      if v.volumeType == MountedArchiveFile {
        var fromCurrentProfile := IsParent(profilePath, v.sourcePath);
        var unvisited := mountedVolumes.Keys;
        while !fromCurrentProfile && unvisited != {}
          invariant unvisited <= mountedVolumes.Keys
          invariant fromCurrentProfile <==>
            IsParent(profilePath, v.sourcePath) ||
            exists id :: id in mountedVolumes && id !in unvisited && IsParent(mountedVolumes[id].mountPath, v.sourcePath)
          decreases |unvisited|
        {
          var id :| id in unvisited;
          if IsParent(mountedVolumes[id].mountPath, v.sourcePath) {
            fromCurrentProfile := true;
          }
          unvisited := unvisited - {id};
        }
        if !fromCurrentProfile {
          return;
        }
      }
      if v.volumeType == RemovableDiskPartition && externalStorageDisabled {
        return;
      }
      if error == MountErrorNone || v.mountCondition != ConditionNone {
        mountedVolumes := mountedVolumes[v.volumeId := v];
      }
    }

    /** Forgets a known volume when the unmount succeeded; an unknown id changes nothing. */
    method DoUnmountEvent(error: MountError, v: VolumeInfo)
      modifies this`mountedVolumes
      ensures v.volumeId !in old(mountedVolumes) ==> mountedVolumes == old(mountedVolumes)
      ensures v.volumeId in old(mountedVolumes) ==>
                mountedVolumes == if error == MountErrorNone then old(mountedVolumes) - {v.volumeId}
                                  else old(mountedVolumes)
    {
      if v.volumeId !in mountedVolumes {
        return;
      }
      if error == MountErrorNone {
        mountedVolumes := mountedVolumes - {v.volumeId};
      }
    }

    /**
     * The id-assignment loop of `OnRemovableStorageAttached`: "mtp:" and the
     * device name, numbered from 2 on while the id is taken.
     */
    method FreshMtpVolumeId(baseName: string) returns (id: string, ghost ordinal: nat)
      ensures FirstFreeMtpId(mountedVolumes, baseName, ordinal)
      ensures id == MtpVolumeIdCandidate(baseName, ordinal)
      ensures id !in mountedVolumes
    {
      var volumes := mountedVolumes;
      id := MtpVolumeIdPrefix + baseName;
      ordinal := 1;
      ghost var tried: set<string> := {};
      var i := 2;
      while id in volumes
        invariant i == ordinal + 1 && ordinal >= 1
        invariant id == MtpVolumeIdCandidate(baseName, ordinal)
        invariant tried == TriedMtpIds(baseName, ordinal) && tried <= volumes.Keys
        decreases |volumes.Keys - tried|
      {
        UntriedMtpId(baseName, ordinal, ordinal);
        ghost var before := volumes.Keys - tried;
        tried := tried + {id};
        assert volumes.Keys - tried < before;
        id := MtpVolumeIdPrefix + baseName + " (" + Decimal(i) + ")";
        ordinal := i;
        i := i + 1;
      }
      forall j | 1 <= j < ordinal
        ensures MtpVolumeIdCandidate(baseName, j) in volumes
      {
        TriedMtpIdsHold(baseName, ordinal, j);
      }
    }

    /**
     * Mounts an MTP device: nothing happens for a non-MTP device or while
     * external storage is disabled; otherwise the device is recorded under
     * the first free MTP id.
     */
    method OnRemovableStorageAttached(isMtpDevice: bool, location: FilePath, modelName: string)
      modifies this`mountedVolumes
      ensures !isMtpDevice || externalStorageDisabled ==> mountedVolumes == old(mountedVolumes)
      ensures isMtpDevice && !externalStorageDisabled ==>
                exists ordinal :: FirstFreeMtpId(old(mountedVolumes), modelName, ordinal) &&
                  mountedVolumes == old(mountedVolumes)[MtpVolumeIdCandidate(modelName, ordinal) :=
                                                        MtpVolumeInfo(location, MtpVolumeIdCandidate(modelName, ordinal))]
    {
      if !isMtpDevice || externalStorageDisabled {
        return;
      }
      var id, ordinal := FreshMtpVolumeId(modelName);
      var v := MtpVolumeInfo(location, id);
      DoMountEvent(MountErrorNone, v, false);
    }

    /**
     * The archive part of `Initialize`: mounts every archive once, in the
     * order `ArchiveMountOrder` gives.
     */
    method MountArchives(archives: seq<VolumeInfo>) returns (order: seq<int>, ghost chains: seq<seq<int>>)
      modifies this`mountedVolumes
      ensures order == MountSequence(chains)
      ensures Covers(order, |archives|)
      ensures forall q :: 0 <= q < |chains| ==> chains[q] != []
      ensures ChainsLinked(archives, chains) && TopsClosed(archives, chains)
      ensures mountedVolumes == AfterMounts(old(mountedVolumes), profilePath, externalStorageDisabled,
                                            Pick(archives, order))
    {
      order, chains := ArchiveMountOrder(archives);
      MountInOrder(archives, order);
    }

    /** Mounts the archives at the given indexes, one after another, without error. */
    method MountInOrder(archives: seq<VolumeInfo>, order: seq<int>)
      requires forall i :: 0 <= i < |order| ==> 0 <= order[i] < |archives|
      modifies this`mountedVolumes
      ensures mountedVolumes == AfterMounts(old(mountedVolumes), profilePath, externalStorageDisabled,
                                            Pick(archives, order))
    {
      for i := 0 to |order|
        invariant mountedVolumes == AfterMounts(old(mountedVolumes), profilePath, externalStorageDisabled,
                                                Pick(archives, order[..i]))
      {
        var v := archives[order[i]];
        assert Pick(archives, order[..i + 1]) == Pick(archives, order[..i]) + [v] by {
          assert order[..i + 1][..i] == order[..i];
        }
        DoMountEvent(MountErrorNone, v, false);
      }
      assert order[..|order|] == order;
    }
  }

  /** The volume `OnRemovableStorageAttached` records for an MTP device. */
  function MtpVolumeInfo(location: FilePath, id: string): (v: VolumeInfo)
    ensures v.volumeType == Mtp && v.volumeId == id && v.mountPath == location && v.sourcePath == location
    ensures v.deviceType == DeviceMobile && v.isParent && v.isReadOnly && v.mountCondition == ConditionNone
  {
    DefaultVolumeInfo.(volumeType := Mtp, mountPath := location, mountCondition := ConditionNone,
                       isParent := true, isReadOnly := true, volumeId := id, sourcePath := location,
                       deviceType := DeviceMobile)
  }

  /** The archives at the given indexes, in that order. */
  function Pick(archives: seq<VolumeInfo>, order: seq<int>): seq<VolumeInfo>
    requires forall i :: 0 <= i < |order| ==> 0 <= order[i] < |archives|
  {
    if order == [] then [] else Pick(archives, order[..|order| - 1]) + [archives[order[|order| - 1]]]
  }
}
