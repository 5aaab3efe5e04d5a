/** `allocate_disks` of the MegaCLI tool family, with the RAID-level and
    disk-type tables of megautils/raid/disk_allocator.py. */
module MegaDiskAllocator {
  import opened Lists
  import opened Text
  import opened Common
  import opened DiskSelection
  import IrcuDiskAllocator

  const RAID_0: string := "0"
  const RAID_1: string := "1"
  const RAID_10: string := "1+0"
  const RAID_5: string := "5"
  const RAID_6: string := "6"
  const RAID_50: string := "5+0"
  const RAID_60: string := "6+0"

  const DISK_TYPE_HDD: string := "hdd"
  const DISK_TYPE_SSD: string := "ssd"

  const RAID_LEVEL_MIN_DISKS: map<string, int> :=
    map[RAID_0 := 1, RAID_1 := 2, RAID_5 := 3, RAID_6 := 4, RAID_10 := 4, RAID_50 := 6, RAID_60 := 8]

  /** 'SAS' drives count as hdd and 'SATA' drives as ssd. */
  const DISK_TYPE_MAP: map<string, string> := map["SAS" := DISK_TYPE_HDD, "SATA" := DISK_TYPE_SSD]

  const MegaTables: Tables := Tables(RAID_LEVEL_MIN_DISKS, DISK_TYPE_MAP, DISK_TYPE_HDD, DISK_TYPE_SSD)

  /** The default disk count of each level, and the mapping of the two known
      interfaces; any other level or interface is a KeyError. */
  lemma DefaultCounts(req: Request)
    requires req.numberOfPhysicalDisks.None?
    ensures req.raidLevel == RAID_6 ==> DiskCount(MegaTables, req) == Ok(4)
    ensures req.raidLevel == RAID_50 ==> DiskCount(MegaTables, req) == Ok(6)
    ensures req.raidLevel == RAID_1 ==> DiskCount(MegaTables, req) == Ok(2)
    ensures req.raidLevel == RAID_60 ==> DiskCount(MegaTables, req) == Ok(8)
    ensures req.raidLevel !in {RAID_0, RAID_1, RAID_5, RAID_6, RAID_10, RAID_50, RAID_60} ==>
      DiskCount(MegaTables, req) == Err(KeyError(req.raidLevel))
  {
  }

  /** The filter as written reads `x.state`, an attribute the MegaCLI
      `PhysicalDisk` does not have (its state is `firmware_state`): the first
      disk of a non-empty inventory raises AttributeError. The count lookup
      comes first, and an empty inventory leaves both pools empty. */
  function AllocateAsWritten(disks: seq<Disk>, req: Request): (r: Result<seq<string>>)
    ensures DiskCount(MegaTables, req).Err? ==> r == Err(DiskCount(MegaTables, req).error)
    ensures DiskCount(MegaTables, req).Ok? && disks != [] ==> r == Err(AttributeError("state"))
  {
    var count := DiskCount(MegaTables, req);
    if count.Err? then Err(count.error)
    else if disks != [] then Err(AttributeError("state"))
    else AllocateDisks([], req)
  }

  /** As written, allocation never succeeds. */
  lemma AsWrittenNeverSucceeds(disks: seq<Disk>, req: Request)
    ensures AllocateAsWritten(disks, req).Err?
    ensures req.raidLevel in RAID_LEVEL_MIN_DISKS && disks != [] ==>
      AllocateAsWritten(disks, req) == Err(AttributeError("state"))
  {
  }

  /** `allocate_disks` with the filter reading `firmware_state`, and the
      final slice `[:number_of_physical_disks - 1]` as written. */
  function AllocateDisks(disks: seq<Disk>, req: Request): (r: Result<seq<string>>)
    ensures r.Err? <==> Select(MegaTables, disks, req).Err?
    ensures r.Ok? ==> r.value <= Refs(Select(MegaTables, disks, req).value.0)
  {
    var sel := Select(MegaTables, disks, req);
    if sel.Err? then Err(sel.error)
    else
      var (pool, n) := sel.value;
      Ok(Take(Refs(pool), n - 1))
  }

  /** The MegaCLI result is the SAS IR result for the same tables with its
      last reference dropped: both succeed or fail together, with the same
      error, and for a positive count the MegaCLI list is one short. */
  lemma OneShortOfIrcu(disks: seq<Disk>, req: Request)
    ensures var m := AllocateDisks(disks, req);
      var i := IrcuDiskAllocator.AllocateDisks(MegaTables, disks, req);
      && (m.Ok? <==> i.Ok?)
      && (m.Err? ==> m.error == i.error)
      && (m.Ok? && DiskCount(MegaTables, req).value >= 1 ==>
            |i.value| == DiskCount(MegaTables, req).value
            && m.value == i.value[..|i.value| - 1])
  {
    SelectCount(MegaTables, disks, req);
    var sel := Select(MegaTables, disks, req);
    if sel.Ok? {
      var refs := Refs(sel.value.0);
      var n := sel.value.1;
      if n >= 1 {
        assert Take(refs, n - 1) == Take(refs, n)[..n - 1];
      }
    }
  }

  /** Two unconfigured 500 GB SAS disks in enclosure 32, slots 0 and 1. */
  function TwoSpareSas(): seq<Disk>
  {
    var state := "Unconfigured(good)";
    [Disk(PyInt(32), PyInt(0), state, 500.0, "SAS"), Disk(PyInt(32), PyInt(1), state, 500.0, "SAS")]
  }

  lemma TwoSpareSasSelected()
    ensures Select(MegaTables, TwoSpareSas(), Request(Max, RAID_1, None, None, false)) == Ok((TwoSpareSas(), 2))
  {
    var disks := TwoSpareSas();
    TwoSpareSasCandidates();
    TwoSpareSasKinds();
    assert DiskCount(MegaTables, Request(Max, RAID_1, None, None, false)) == Ok(2);
  }

  lemma TwoSpareSasCandidates()
    ensures Candidates(TwoSpareSas(), 1) == TwoSpareSas()
  {
    var disks := TwoSpareSas();
    var d0, d1 := disks[0], disks[1];
    NotContainsHead(d0.firmwareState, "Online");
    assert Available(d0, 1) && Available(d1, 1);
    assert disks[1..] == [d1] && disks[1..][1..] == [];
  }

  lemma TwoSpareSasKinds()
    ensures FirstUnmapped(MegaTables, TwoSpareSas()) == None
    ensures OfKind(MegaTables, TwoSpareSas(), DISK_TYPE_SSD) == []
    ensures OfKind(MegaTables, TwoSpareSas(), DISK_TYPE_HDD) == TwoSpareSas()
  {
    var disks := TwoSpareSas();
    var d0, d1 := disks[0], disks[1];
    assert disks[1..] == [d1] && disks[1..][1..] == [];
    assert IsKind(MegaTables, DISK_TYPE_HDD, d0) && IsKind(MegaTables, DISK_TYPE_HDD, d1);
    assert !IsKind(MegaTables, DISK_TYPE_SSD, d0) && !IsKind(MegaTables, DISK_TYPE_SSD, d1);
  }

  lemma TwoSpareSasFirstRef()
    ensures Take(Refs(TwoSpareSas()), 1) == ["32:0"]
  {
    var disks := TwoSpareSas();
    assert FormatInt(32) == "32" by { assert FormatNat(32) == FormatNat(3) + [DigitChar(2)]; }
    assert FormatInt(0) == "0";
    assert Refs(disks)[0] == "32" + ":" + "0";
    assert |Refs(disks)| == 2;
    assert Refs(disks)[..1] == [Refs(disks)[0]];
    assert Take(Refs(disks), 1) == Refs(disks)[..1];
    assert "32" + ":" + "0" == "32:0";
  }

  /** A RAID 1 request over two spare SAS disks gets a single disk. */
  lemma Raid1GetsOneDisk()
    ensures AllocateDisks(TwoSpareSas(), Request(Max, RAID_1, None, None, false)) == Ok(["32:0"])
  {
    TwoSpareSasSelected();
    TwoSpareSasFirstRef();
  }

  /** The allocation writes its result into the request's `physical_disks`
      entry and changes nothing else; on an error nothing is written. */
  method AllocateInto(config: LogicalDiskConfig, disks: seq<Disk>) returns (err: Option<Error>)
    modifies config
    ensures config.request == old(config.request)
    ensures var r := AllocateDisks(disks, old(config.request));
      && (r.Ok? ==> err.None? && config.physicalDisks == Some(r.value))
      && (r.Err? ==> err == Some(r.error) && config.physicalDisks == old(config.physicalDisks))
  {
    var r := AllocateDisks(disks, config.request);
    if r.Err? {
      return Some(r.error);
    }
    config.SetPhysicalDisks(r.value);
    err := None;
  }
}
