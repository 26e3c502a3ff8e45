/** The base partition tables of bootc-image-builder
    (bib/cmd/bootc-image-builder/partition_tables.go): literal data keyed
    by layout name and architecture.

    The partition-type GUIDs and well-known UUIDs come from the disk library
    of osbuild/images; they appear here as opaque named constants. */
module PartitionTables {
  import opened Wrappers

  const MebiByte: nat := 1024 * 1024
  const GibiByte: nat := 1024 * 1024 * 1024

  /** Mount options of `/boot` and of `/`: read-only. */
  const BootOptions := "ro"
  const RootOptions := "ro"

  const DiskUuidOfUnknownOrigin := "D209C89E-EA5E-4FBD-B161-B461CCE297E0"

  datatype PartitionTableType = PT_GPT | PT_DOS

  /** Partition type identifiers of the disk library. */
  datatype PartitionKind =
    | EFISystemPartitionGUID
    | FilesystemDataGUID
    | BIOSBootPartitionGUID
    | PRePartitionGUID
    | DosFat16B
    | DosLinuxTypeID

  /** Fixed partition and filesystem UUIDs of the disk library. */
  datatype LibraryUuid =
    | EFISystemPartitionUUID
    | EFIFilesystemUUID
    | FilesystemDataUUID
    | RootPartitionUUID
    | BIOSBootPartitionUUID

  /** A filesystem and its `/etc/fstab` entry. */
  datatype Filesystem = Filesystem(
    fsType: string,
    uuid: Option<LibraryUuid>,
    mountpoint: string,
    fsLabel: string,
    fstabOptions: string,
    fstabFreq: nat,
    fstabPassNo: nat)

  /** A partition; a partition without a payload holds no filesystem. */
  datatype Partition = Partition(
    size: nat,
    kind: PartitionKind,
    uuid: Option<LibraryUuid>,
    bootable: bool,
    payload: Option<Filesystem>)

  datatype PartitionTable = PartitionTable(
    uuid: string,
    tableType: PartitionTableType,
    startOffset: nat,
    partitions: seq<Partition>)

  const EfiFilesystem := Filesystem("vfat", Some(EFIFilesystemUUID), "/boot/efi", "EFI-SYSTEM",
                                    "umask=0077,shortname=winnt", 0, 2)
  const BootFilesystem := Filesystem("ext4", None, "/boot", "boot", BootOptions, 1, 2)
  const RootFilesystem := Filesystem("ext4", None, "/", "root", RootOptions, 1, 1)

  /** The EFI system partition. */
  const EfiPartition := Partition(501 * MebiByte, EFISystemPartitionGUID, Some(EFISystemPartitionUUID),
                                  false, Some(EfiFilesystem))
  /** A separate `/boot`. */
  const BootPartition := Partition(1 * GibiByte, FilesystemDataGUID, Some(FilesystemDataUUID),
                                   false, Some(BootFilesystem))
  /** The root filesystem. */
  const RootPartition := Partition(2 * GibiByte, FilesystemDataGUID, Some(RootPartitionUUID),
                                   false, Some(RootFilesystem))

  const BiosBootPartition := Partition(1 * MebiByte, BIOSBootPartitionGUID, Some(BIOSBootPartitionUUID),
                                       true, None)
  const PrepPartition := Partition(4 * MebiByte, PRePartitionGUID, None, true, None)

  /** A GPT table with the disk UUID every default table uses. */
  function GptTable(partitions: seq<Partition>): PartitionTable
  {
    PartitionTable(DiskUuidOfUnknownOrigin, PT_GPT, 0, partitions)
  }

  const DefaultTables: map<string, PartitionTable> := map[
    "x86_64" := GptTable([BiosBootPartition, EfiPartition, BootPartition, RootPartition]),
    "aarch64" := GptTable([EfiPartition, BootPartition, RootPartition]),
    "s390x" := GptTable([BootPartition, RootPartition]),
    "ppc64le" := GptTable([PrepPartition, BootPartition, RootPartition])
  ]

  /** The table for single-board computers: a DOS table that keeps the sizes
      and payloads of the three standard partitions under DOS types. */
  const RpiTable := PartitionTable("0xc1748067", PT_DOS, 8 * MebiByte, [
    Partition(EfiPartition.size, DosFat16B, None, true, EfiPartition.payload),
    Partition(BootPartition.size, DosLinuxTypeID, None, false, BootPartition.payload),
    Partition(RootPartition.size, DosLinuxTypeID, None, false, RootPartition.payload)
  ])

  const Tables: map<string, map<string, PartitionTable>> := map[
    "default" := DefaultTables,
    "rpi" := map["aarch64" := RpiTable]
  ]

  /** The table for a layout and an architecture, if one is defined: the
      four default architectures and the aarch64 single-board layout. Every
      table found ends with `/boot` then `/` and mounts each filesystem at
      its own place. */
  function Lookup(layout: string, arch: string): (r: Option<PartitionTable>)
    ensures r.Some? <==> || (layout == "default" && arch in {"x86_64", "aarch64", "s390x", "ppc64le"})
                         || (layout == "rpi" && arch == "aarch64")
    ensures r.Some? ==> EndsWithBootAndRoot(r.value) && DistinctMountpoints(r.value)
  {
    assert "/boot/efi" != "/boot" && "/boot/efi" != "/" && "/boot" != "/";
    if layout in Tables && arch in Tables[layout] then Some(Tables[layout][arch]) else None
  }

  /** The last partition holds the root filesystem and the one before it
      holds `/boot`. */
  predicate EndsWithBootAndRoot(t: PartitionTable)
  {
    var ps := t.partitions;
    && |ps| >= 2
    && ps[|ps| - 1].payload == Some(RootFilesystem)
    && ps[|ps| - 2].payload == Some(BootFilesystem)
  }

  /** No two filesystems of a table share a mountpoint. */
  predicate DistinctMountpoints(t: PartitionTable)
  {
    forall i, j :: 0 <= i < j < |t.partitions| && t.partitions[i].payload.Some? && t.partitions[j].payload.Some?
      ==> t.partitions[i].payload.value.mountpoint != t.partitions[j].payload.value.mountpoint
  }

  /** The size units: a gibibyte is 1024 mebibytes. */
  lemma SizeUnits()
    ensures MebiByte == 1048576
    ensures GibiByte == 1024 * MebiByte
  {
  }

  /** The three standard partitions: a 501 MiB vfat ESP at `/boot/efi`, a
      1 GiB ext4 `/boot` and a 2 GiB ext4 `/`, the last two read-only. */
  lemma StandardPartitions()
    ensures EfiPartition.size == 501 * MebiByte
    ensures EfiPartition.payload.value.fsType == "vfat"
    ensures EfiPartition.payload.value.mountpoint == "/boot/efi"
    ensures BootPartition.size == GibiByte && RootPartition.size == 2 * GibiByte
    ensures BootPartition.payload.value.fsType == "ext4" && RootPartition.payload.value.fsType == "ext4"
    ensures BootPartition.payload.value.mountpoint == "/boot"
    ensures RootPartition.payload.value.mountpoint == "/"
    ensures BootPartition.payload.value.fstabOptions == "ro"
    ensures RootPartition.payload.value.fstabOptions == "ro"
    ensures RootPartition.payload.value.fstabPassNo == 1
  {
  }

  /** The layouts and architectures for which a table exists. */
  lemma Coverage()
    ensures Tables.Keys == {"default", "rpi"}
    ensures Tables["default"].Keys == {"x86_64", "aarch64", "s390x", "ppc64le"}
    ensures Tables["rpi"].Keys == {"aarch64"}
  {
  }

  /** Every default table is a GPT table with the fixed disk UUID. */
  lemma DefaultTablesGpt(arch: string)
    requires arch in Tables["default"]
    ensures Tables["default"][arch].tableType == PT_GPT
    ensures Tables["default"][arch].uuid == DiskUuidOfUnknownOrigin
    ensures Tables["default"][arch].startOffset == 0
  {
  }

  /** The first partitions differ by architecture: a bootable 1 MiB BIOS
      boot partition on x86_64, the ESP on aarch64, a bootable 4 MiB PReP
      partition on ppc64le, and nothing before `/boot` on s390x. */
  lemma DefaultFirstPartitions()
    ensures var x := Tables["default"]["x86_64"].partitions;
      && |x| == 4 && x[0].kind == BIOSBootPartitionGUID && x[0].bootable && x[0].size == MebiByte
      && x[1] == EfiPartition
    ensures var a := Tables["default"]["aarch64"].partitions;
      |a| == 3 && a[0] == EfiPartition
    ensures var p := Tables["default"]["ppc64le"].partitions;
      && |p| == 3 && p[0].kind == PRePartitionGUID && p[0].bootable && p[0].size == 4 * MebiByte
    ensures Tables["default"]["s390x"].partitions == [BootPartition, RootPartition]
  {
  }

  /** The single-board table reuses the sizes and payloads of the ESP,
      `/boot` and `/` in that order, and only its first partition is
      bootable. */
  lemma RpiReusesPayloads()
    ensures var t := Tables["rpi"]["aarch64"];
      && t.tableType == PT_DOS && t.startOffset == 8 * MebiByte
      && |t.partitions| == 3
      && t.partitions[0].size == EfiPartition.size && t.partitions[0].payload == EfiPartition.payload
      && t.partitions[1].size == BootPartition.size && t.partitions[1].payload == BootPartition.payload
      && t.partitions[2].size == RootPartition.size && t.partitions[2].payload == RootPartition.payload
      && forall i :: 0 <= i < 3 ==> (t.partitions[i].bootable <==> i == 0)
  {
  }
}
