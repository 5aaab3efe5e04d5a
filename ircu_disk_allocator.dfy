/** `allocate_disks` of the SAS IR tool family: the shared selection rule
    followed by the first n references of the chosen pool. */
module IrcuDiskAllocator {
  import opened Lists
  import opened Text
  import opened Common
  import opened DiskSelection

  /** The references `allocate_disks` writes for the inventory `disks`, or
      the error it raises. The tables are those of the IR tool's `mega`
      module, which is not part of this model, so they are a parameter. */
  function AllocateDisks(t: Tables, disks: seq<Disk>, req: Request): (r: Result<seq<string>>)
    ensures r.Err? <==> Select(t, disks, req).Err?
    ensures r.Ok? ==> r.value <= Refs(Select(t, disks, req).value.0)
  {
    var sel := Select(t, disks, req);
    if sel.Err? then Err(sel.error)
    else
      var (pool, n) := sel.value;
      Ok(Take(Refs(pool), n))
  }

  /** On success the result holds exactly n references when n is not
      negative: the first n disks of one pool of candidates, in inventory
      order. */
  lemma AllocateDisksExact(t: Tables, disks: seq<Disk>, req: Request)
    ensures var r := AllocateDisks(t, disks, req);
      && (r.Err? ==> r.error == PhysicalDisksNotFoundError || r.error.KeyError?)
      && (r.Ok? ==> Select(t, disks, req).Ok? && var (pool, n) := Select(t, disks, req).value;
            && DiskCount(t, req) == Ok(n)
            && IsSubsequence(pool, disks)
            && (forall k :: 0 <= k < |pool| ==> Available(pool[k], MinSize(req.sizeGb)))
            && (n >= 0 ==> |r.value| == n && r.value == Refs(pool[..n])))
  {
    SelectSound(t, disks, req);
    var sel := Select(t, disks, req);
    if sel.Ok? {
      var (pool, n) := sel.value;
      if n >= 0 {
        RefsPrefix(pool, n);
      }
    }
  }

  /** The references of a prefix are the prefix of the references. */
  lemma RefsPrefix(pool: seq<Disk>, n: nat)
    requires n <= |pool|
    ensures Refs(pool)[..n] == Refs(pool[..n])
  {
    assert forall k :: 0 <= k < n ==> pool[..n][k] == pool[k];
  }

  /** The allocation writes its result into the request's `physical_disks`
      entry and changes nothing else; on an error nothing is written. */
  method AllocateInto(t: Tables, config: LogicalDiskConfig, disks: seq<Disk>) returns (err: Option<Error>)
    modifies config
    ensures config.request == old(config.request)
    ensures var r := AllocateDisks(t, disks, old(config.request));
      && (r.Ok? ==> err.None? && config.physicalDisks == Some(r.value))
      && (r.Err? ==> err == Some(r.error) && config.physicalDisks == old(config.physicalDisks))
  {
    var r := AllocateDisks(t, disks, config.request);
    if r.Err? {
      return Some(r.error);
    }
    config.SetPhysicalDisks(r.value);
    err := None;
  }
}
