/** The selection rule shared by both `allocate_disks` variants: keep the
    disks that are not online and large enough, split them into an ssd and an
    hdd pool by interface, pick a pool by a fixed precedence and format the
    chosen disks as "enclosure:slot" references. */
module DiskSelection {
  import opened Lists
  import opened Text
  import opened Common

  /** The attributes of a physical disk that allocation reads: enclosure and
      slot, the firmware state, the size in GB and the interface name
      (`pd_type` for MegaCLI disks, `drive_type` for SAS IR disks). */
  datatype Disk = Disk(enclosure: PyVal, slot: PyVal, firmwareState: string, size: real, iface: string)

  /** The constants an allocator works with: the minimum number of disks per
      RAID level, the interface-to-type map and the two type names. */
  datatype Tables = Tables(minDisks: map<string, int>, diskTypes: map<string, string>, hdd: string, ssd: string)

  /** The `size_gb` entry of a logical disk: the string 'MAX' or a number. */
  datatype SizeGb = Max | Gb(gb: int)

  /** The entries of a logical-disk request that allocation reads. Absent
      optional entries are None (`disk_type`, `number_of_physical_disks`) or
      false (`is_root_volume`, read through Python truthiness). */
  datatype Request = Request(sizeGb: SizeGb, raidLevel: string, numberOfPhysicalDisks: Option<int>,
                             diskType: Option<string>, isRootVolume: bool)

  /** The size every candidate must reach: 1 for 'MAX', the request otherwise. */
  function MinSize(s: SizeGb): int
  {
    if s.Max? then 1 else s.gb
  }

  /** `config.get('number_of_physical_disks', MIN_DISKS[raid_level])`: the
      default is evaluated eagerly, so an unknown level raises KeyError even
      when an explicit count is given. */
  function DiskCount(t: Tables, req: Request): (r: Result<int>)
    ensures r.Err? <==> req.raidLevel !in t.minDisks
    ensures r.Err? ==> r.error == KeyError(req.raidLevel)
    ensures r.Ok? && req.numberOfPhysicalDisks.None? ==> r.value == t.minDisks[req.raidLevel]
    ensures r.Ok? && req.numberOfPhysicalDisks.Some? ==> r.value == req.numberOfPhysicalDisks.value
  {
    if req.raidLevel !in t.minDisks then Err(KeyError(req.raidLevel))
    else
      var default := t.minDisks[req.raidLevel];
      Ok(if req.numberOfPhysicalDisks.Some? then req.numberOfPhysicalDisks.value else default)
  }

  /** A disk is a candidate when its firmware state does not mention 'Online'
      and it is at least the requested size. */
  predicate Available(d: Disk, minSize: int)
  {
    !Contains(d.firmwareState, "Online") && d.size >= minSize as real
  }

  /** `[x for x in disks if 'Online' not in x.firmware_state and x.size >= m]`. */
  function Candidates(disks: seq<Disk>, m: int): (r: seq<Disk>)
    ensures forall k :: 0 <= k < |r| ==> Available(r[k], m)
    ensures forall d :: d in r <==> d in disks && Available(d, m)
    ensures IsSubsequence(r, disks)
  {
    if disks == [] then []
    else
      var rest := Candidates(disks[1..], m);
      if Available(disks[0], m) then
        assert ([disks[0]] + rest)[1..] == rest;
        [disks[0]] + rest
      else rest
  }

  /** The interface of the first disk that `_get_disk_type` cannot map (the
      KeyError key), if any. */
  function FirstUnmapped(t: Tables, ds: seq<Disk>): (r: Option<string>)
    ensures r.None? <==> forall k :: 0 <= k < |ds| ==> ds[k].iface in t.diskTypes
    ensures r.Some? ==> r.value !in t.diskTypes
    ensures r.Some? ==> exists k :: 0 <= k < |ds| && ds[k].iface == r.value
                          && forall j :: 0 <= j < k ==> ds[j].iface in t.diskTypes
  {
    if ds == [] then None
    else if ds[0].iface !in t.diskTypes then Some(ds[0].iface)
    else
      var r := FirstUnmapped(t, ds[1..]);
      assert forall k :: 1 <= k < |ds| ==> ds[k] == ds[1..][k - 1];
      assert r.Some? ==> exists k :: 0 <= k < |ds| && ds[k].iface == r.value
                          && forall j :: 0 <= j < k ==> ds[j].iface in t.diskTypes by {
        if r.Some? {
          var k :| 0 <= k < |ds| - 1 && ds[1..][k].iface == r.value
                   && forall j :: 0 <= j < k ==> ds[1..][j].iface in t.diskTypes;
          assert ds[k + 1].iface == r.value;
        }
      }
      r
  }

  predicate IsKind(t: Tables, kind: string, d: Disk)
  {
    d.iface in t.diskTypes && t.diskTypes[d.iface] == kind
  }

  /** `[x for x in ds if _get_disk_type(x.iface) == kind]`. */
  function OfKind(t: Tables, ds: seq<Disk>, kind: string): (r: seq<Disk>)
    ensures forall k :: 0 <= k < |r| ==> IsKind(t, kind, r[k])
    ensures forall d :: d in r <==> d in ds && IsKind(t, kind, d)
    ensures IsSubsequence(r, ds)
  {
    if ds == [] then []
    else
      var rest := OfKind(t, ds[1..], kind);
      if IsKind(t, kind, ds[0]) then
        assert ([ds[0]] + rest)[1..] == rest;
        [ds[0]] + rest
      else rest
  }

  /** `not disk_type` for an optional string. */
  predicate Falsy(v: Option<string>)
  {
    v.None? || v.value == ""
  }

  /** The ssd pool is preferred: no type was given and the volume is the root
      volume, or the type 'ssd' was given. */
  predicate PrefersSsd(t: Tables, req: Request)
  {
    (Falsy(req.diskType) && req.isRootVolume) || req.diskType == Some(t.ssd)
  }

  /** `if not target_physical_disks: raise`. */
  function NonEmpty(pool: seq<Disk>): (r: Result<seq<Disk>>)
  {
    if pool == [] then Err(PhysicalDisksNotFoundError) else Ok(pool)
  }

  /** The branch chain that picks the target pool for n disks; a branch that
      leaves the target unset ends at the final emptiness check. */
  function ChoosePool(t: Tables, req: Request, ssd: seq<Disk>, hdd: seq<Disk>, n: int): (r: Result<seq<Disk>>)
    ensures r.Err? ==> r.error == PhysicalDisksNotFoundError
    ensures r.Ok? ==> r.value != [] && |r.value| >= n && (r.value == ssd || r.value == hdd)
    // an ssd preference never falls back to hdd, whether explicit or from the root volume
    ensures PrefersSsd(t, req) ==> (r.Ok? <==> ssd != [] && |ssd| >= n) && (r.Ok? ==> r.value == ssd)
    // enough hdd disks and no ssd preference: the hdd pool
    ensures !PrefersSsd(t, req) && |hdd| >= n ==> (r.Ok? <==> hdd != []) && (r.Ok? ==> r.value == hdd)
    // too few hdd disks: an explicit hdd request fails, otherwise ssd if it is large enough
    ensures !PrefersSsd(t, req) && |hdd| < n ==>
      (r.Ok? <==> req.diskType != Some(t.hdd) && ssd != [] && |ssd| >= n) && (r.Ok? ==> r.value == ssd)
  {
    if PrefersSsd(t, req) then
      if |ssd| >= n then NonEmpty(ssd)
      else if |ssd| < n && req.diskType == Some(t.ssd) then Err(PhysicalDisksNotFoundError)
      else Err(PhysicalDisksNotFoundError)
    else if |hdd| < n then
      if req.diskType == Some(t.hdd) then Err(PhysicalDisksNotFoundError)
      else if |ssd| < n then Err(PhysicalDisksNotFoundError)
      else NonEmpty(ssd)
    else NonEmpty(hdd)
  }

  /** The chosen pool and the disk count, or the error allocation raises, in
      the order the source evaluates: the count, the filter, the type map,
      then the choice. */
  function Select(t: Tables, disks: seq<Disk>, req: Request): (r: Result<(seq<Disk>, int)>)
    ensures DiskCount(t, req).Err? ==> r == Err(DiskCount(t, req).error)
    ensures r.Ok? ==> DiskCount(t, req) == Ok(r.value.1) && r.value.0 != [] && |r.value.0| >= r.value.1
  {
    var count := DiskCount(t, req);
    if count.Err? then Err(count.error)
    else
      var cands := Candidates(disks, MinSize(req.sizeGb));
      var bad := FirstUnmapped(t, cands);
      if bad.Some? then Err(KeyError(bad.value))
      else
        var pool := ChoosePool(t, req, OfKind(t, cands, t.ssd), OfKind(t, cands, t.hdd), count.value);
        if pool.Err? then Err(pool.error) else Ok((pool.value, count.value))
  }

  /** A successful selection takes a pool of at least n candidates, all of
      one type and in inventory order; failures are the key lookups and
      PhysicalDisksNotFoundError. */
  lemma SelectSound(t: Tables, disks: seq<Disk>, req: Request)
    ensures var r := Select(t, disks, req);
      && (r.Err? ==> r.error == PhysicalDisksNotFoundError || r.error.KeyError?)
      && (r.Ok? ==> var (pool, n) := r.value;
            && DiskCount(t, req) == Ok(n)
            && pool != [] && |pool| >= n
            && IsSubsequence(pool, disks)
            && (forall k :: 0 <= k < |pool| ==> Available(pool[k], MinSize(req.sizeGb)))
            && ((forall k :: 0 <= k < |pool| ==> IsKind(t, t.ssd, pool[k]))
                || (forall k :: 0 <= k < |pool| ==> IsKind(t, t.hdd, pool[k]))))
  {
    var r := Select(t, disks, req);
    if r.Ok? {
      var cands := Candidates(disks, MinSize(req.sizeGb));
      var pool := r.value.0;
      SubsequenceTrans(pool, cands, disks);
      assert forall k :: 0 <= k < |pool| ==> pool[k] in cands;
    }
  }

  /** A successful selection returns the requested count and a pool at
      least that large. */
  lemma SelectCount(t: Tables, disks: seq<Disk>, req: Request)
    ensures var r := Select(t, disks, req);
      r.Ok? ==> DiskCount(t, req) == Ok(r.value.1) && |r.value.0| >= r.value.1
  {
    SelectSound(t, disks, req);
  }

  /** With distinct type names the two pools share no disk, and when every
      candidate maps to one of the two names they split the candidates
      between them. */
  lemma {:induction false} PoolsPartition(t: Tables, cands: seq<Disk>)
    requires t.ssd != t.hdd
    requires forall k :: 0 <= k < |cands| ==>
      cands[k].iface in t.diskTypes && t.diskTypes[cands[k].iface] in {t.ssd, t.hdd}
    ensures forall d :: !(d in OfKind(t, cands, t.ssd) && d in OfKind(t, cands, t.hdd))
    ensures |OfKind(t, cands, t.ssd)| + |OfKind(t, cands, t.hdd)| == |cands|
  {
    if cands != [] {
      assert forall k :: 0 <= k < |cands[1..]| ==> cands[1..][k] == cands[k + 1];
      PoolsPartition(t, cands[1..]);
    }
  }

  /** `["%s:%s" % (x.enclosure, x.slot) for x in pool]`. */
  function Refs(pool: seq<Disk>): (r: seq<string>)
    ensures |r| == |pool|
    ensures forall k :: 0 <= k < |pool| ==> r[k] == pool[k].enclosure.Show() + ":" + pool[k].slot.Show()
  {
    if pool == [] then []
    else [pool[0].enclosure.Show() + ":" + pool[0].slot.Show()] + Refs(pool[1..])
  }

  /** A logical-disk request as the dict the allocator writes into; only its
      `physical_disks` entry changes. */
  class LogicalDiskConfig {
    var request: Request
    var physicalDisks: Option<seq<string>>

    constructor (request: Request)
      ensures this.request == request && physicalDisks.None?
    {
      this.request := request;
      physicalDisks := None;
    }

    /** `config['physical_disks'] = refs`. */
    method SetPhysicalDisks(refs: seq<string>)
      modifies this
      ensures request == old(request) && physicalDisks == Some(refs)
    {
      physicalDisks := Some(refs);
    }
  }
}
