/** The SAS IR inventory as the IR allocator sees it: the view of a parsed
    physical disk that `allocate_disks` reads, and the consequence of the
    parser never assigning `firmware_state` (physical_disk.py:39 with
    disk_allocator.py:38-40): no parsed disk is ever a candidate. */
module IrcuPdAllocation {
  import opened Lists
  import opened Text
  import opened Common
  import opened Fields
  import opened DiskSelection
  import opened IrcuPhysicalDisk
  import IrcuDiskAllocator

  /** A text value, '' when it is not a string. */
  function TextOf(v: PyVal): string
  {
    if v.PyStr? then v.s else ""
  }

  /** The view of a parsed disk the IR allocator reads: enclosure, slot,
      `firmware_state`, `size` and `drive_type`. A size that is not an
      integer is taken as 0; the allocator's filter tests the firmware state
      first, so it never reads the size of an 'Online' disk. */
  function ToDisk(p: IrPdRecord): (d: Disk)
    ensures Online(p) ==> d.firmwareState == "Online"
    ensures d.enclosure == p.enclosure && d.slot == p.slot
  {
    var size := if "size" in p.attrs && p.attrs["size"].PyInt? then p.attrs["size"].i as real else 0.0;
    var iface := if "drive_type" in p.attrs then TextOf(p.attrs["drive_type"]) else "";
    Disk(p.enclosure, p.slot, TextOf(p.firmwareState), size, iface)
  }

  function ToDisks(pds: seq<IrPdRecord>): (ds: seq<Disk>)
    ensures |ds| == |pds| && forall k :: 0 <= k < |pds| ==> ds[k] == ToDisk(pds[k])
  {
    if pds == [] then [] else [ToDisk(pds[0])] + ToDisks(pds[1..])
  }

  /** An 'Online' disk is never a candidate. */
  lemma OnlineNotAvailable(d: Disk, m: int)
    requires d.firmwareState == "Online"
    ensures !Available(d, m)
  {
    assert OccursAt(d.firmwareState, "Online", 0) by { assert d.firmwareState[0..6] == "Online"; }
  }

  /** The inventory a multi-mode run produces from a fresh object holds no
      candidate, so the IR allocator fails on it whatever the request. */
  lemma ParsedDisksNeverAllocated(t: Tables, r: IrPdRecord, lines: seq<string>, req: Request)
    requires Online(r)
    ensures var run := Parse(r, lines, true, [], 0);
      run.parsed.Records? ==>
        && Candidates(ToDisks(run.parsed.records), MinSize(req.sizeGb)) == []
        && IrcuDiskAllocator.AllocateDisks(t, ToDisks(run.parsed.records), req).Err?
  {
    AlwaysOnline(r, lines, true, [], 0);
    var run := Parse(r, lines, true, [], 0);
    if run.parsed.Records? {
      var ds := ToDisks(run.parsed.records);
      var cands := Candidates(ds, MinSize(req.sizeGb));
      if cands != [] {
        assert cands[0] in ds;
        var k :| 0 <= k < |ds| && ds[k] == cands[0];
        OnlineNotAvailable(ds[k], MinSize(req.sizeGb));
        assert false;
      }
      assert OfKind(t, cands, t.ssd) == [] && OfKind(t, cands, t.hdd) == [];
    }
  }
}
