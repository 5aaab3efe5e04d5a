/** The SAS IR volume (`raid_ircu` virtual driver): the parser of the IR
    tool's `LIST` output, and `create`, `destroy`, `__flush__` and
    `getall_virtual_drivers`.

    Three behaviours of `_handle` are reproduced as written and flagged
    where they are proved: once the id is set a snapshot is appended after
    EVERY line (virtual_driver.py:92-93); in multi mode the boundary
    snapshot is taken after the new id is read, so it pairs the new id with
    the previous volume's fields (virtual_driver.py:61-64); and the list of
    physical disks is created once and never reset between volumes
    (virtual_driver.py:85-91). The '  RAID level' branch slices with the
    name `delim`, which the module never defines, so it always raises
    NameError (virtual_driver.py:79-81). */
module IrcuVirtualDriver {
  import opened Lists
  import opened Text
  import opened Common
  import opened Fields

  /** The attributes of a `VirtualDriver` object: the adapter and id, the
      list of physical disks (None until a '  Physical hard disks' line) and
      the descriptive attributes by name. */
  datatype IrVdRecord = IrVdRecord(adapter: PyVal, id: PyVal, attrs: Attrs, disks: Option<seq<string>>)

  /** The descriptive attributes `__init__` sets, all empty. */
  const InitialAttrs: Attrs := map[
    "volume_id" := PyStr(""), "pi_supported" := PyStr(""), "status_of_volume" := PyStr(""),
    "volume_wwid" := PyStr(""), "raid_level" := PyStr(""), "size" := PyStr("")]

  function Initial(adapterId: PyVal, id: PyVal): IrVdRecord
  {
    IrVdRecord(adapterId, id, InitialAttrs, None)
  }

  /** A volume starts at a line beginning 'IR volume'. */
  predicate IsBoundary(line: string)
  {
    StartsWith(line, "IR volume")
  }

  /** `line.split(' ')[-1]`, the volume number of a boundary line. */
  function IdToken(line: string): string
  {
    var parts := Split(line, ' ');
    parts[|parts| - 1]
  }

  /** The labelled branches of the elif chain, in chain order; the two list
      branches follow them. */
  const Chain: seq<Field> := [
    Field("  Volume ID", "volume_id", Int), Field("  PI Supported", "pi_supported", Str),
    Field("  Status of volume", "status_of_volume", Str), Field("  Volume wwid", "volume_wwid", Str),
    Field("  RAID level", "raid_level", Undefined("delim")), Field("  Size", "size", Int)]

  predicate IsDisksHeader(line: string)
  {
    StartsWith(line, "  Physical hard disks")
  }

  predicate IsPhy(line: string)
  {
    StartsWith(line, "  PHY")
  }

  /** `not self.physical_hard_disks`: None and the empty list are false. */
  predicate NoDisks(d: Option<seq<string>>)
  {
    d.None? || d.value == []
  }

  /** The elif chain on one line: the labelled fields, then the list header
      (which creates the list only when there is none or it is empty), then
      a '  PHY' line (which appends to the list, and raises AttributeError
      on None). The adapter and id are never touched. */
  function SetField(r: IrVdRecord, line: string): (s: Result<IrVdRecord>)
    ensures s.Ok? ==> s.value.adapter == r.adapter && s.value.id == r.id
  {
    if Lookup(line, Chain).Some? then
      var a := Assign(r.attrs, line, Chain);
      if a.Err? then Err(a.error) else Ok(r.(attrs := a.value))
    else if IsDisksHeader(line) then
      Ok(if NoDisks(r.disks) then r.(disks := Some([])) else r)
    else if IsPhy(line) then
      if r.disks.None? then Err(AttributeError("append"))
      else Ok(r.(disks := Some(r.disks.value + [AfterColon(line)])))
    else Ok(r)
  }

  /** The boundary branch: single mode returns the first snapshot once one
      exists; otherwise the id is read from the last token and, in multi
      mode, the state is appended with that NEW id. */
  function Boundary(r: IrVdRecord, line: string, multi: bool, vds: seq<IrVdRecord>): (st: Step<IrVdRecord>)
    ensures !multi && |vds| > 0 ==> st == Stop(Run(r, First(vds[0])))
    ensures (multi || |vds| == 0) && ParseInt(IdToken(line)).None? ==>
      st == Stop(Run(r, Failed(ValueError(IdToken(line)))))
    ensures (multi || |vds| == 0) && ParseInt(IdToken(line)).Some? ==>
      var r1 := r.(id := PyInt(ParseInt(IdToken(line)).value));
      st == Go(r1, if multi then vds + [r1] else vds)
  {
    if !multi && |vds| > 0 then Stop(Run(r, First(vds[0])))
    else
      var v := IntValue(IdToken(line));
      if v.Err? then Stop(Run(r, Failed(v.error)))
      else
        var r1 := r.(id := v.value);
        Go(r1, if multi then vds + [r1] else vds)
  }

  /** The body of the loop of `_handle` for one line: the boundary branch,
      then the chain, then the append once the id is set. */
  function LineStep(r: IrVdRecord, line: string, multi: bool, vds: seq<IrVdRecord>): (st: Step<IrVdRecord>)
    ensures st.Go? ==> (!st.state.id.PyNone? <==> (IsBoundary(line) || !r.id.PyNone?))
  {
    var b := if IsBoundary(line) then Boundary(r, line, multi, vds) else Go(r, vds);
    if b.Stop? then b
    else
      var s := SetField(b.state, line);
      if s.Err? then Stop(Run(b.state, Failed(s.error)))
      else Go(s.value, if s.value.id.PyNone? then b.out else b.out + [s.value])
  }

  /** `_handle` as a fold over the lines; nothing is appended after the
      loop. */
  function Parse(r: IrVdRecord, lines: seq<string>, multi: bool, vds: seq<IrVdRecord>): Run<IrVdRecord>
    decreases |lines|
  {
    if lines == [] then Run(r, Records(vds))
    else
      match LineStep(r, lines[0], multi, vds)
      case Stop(run) => run
      case Go(r1, vds1) => Parse(r1, lines[1..], multi, vds1)
  }

  /** One step of the fold, from line i on. */
  lemma ParseStep(r: IrVdRecord, lines: seq<string>, i: nat, multi: bool, vds: seq<IrVdRecord>, st: Step<IrVdRecord>)
    requires i < |lines| && st == LineStep(r, lines[i], multi, vds)
    ensures Parse(r, lines[i..], multi, vds)
      == if st.Stop? then st.run else Parse(st.state, lines[i + 1..], multi, st.out)
  {
    assert lines[i..][0] == lines[i] && lines[i..][1..] == lines[i + 1..];
  }

  /** The number of boundary lines. */
  function Boundaries(lines: seq<string>): nat
  {
    if lines == [] then 0 else (if IsBoundary(lines[0]) then 1 else 0) + Boundaries(lines[1..])
  }

  /** No label of the chain starts a boundary line. */
  lemma BoundaryNotInChain(line: string)
    requires IsBoundary(line)
    ensures Lookup(line, Chain).None? && !IsDisksHeader(line) && !IsPhy(line)
  {
    PrefixClash(line, "IR volume", "  Physical hard disks", 0);
    PrefixClash(line, "IR volume", "  PHY", 0);
    forall k | 0 <= k < |Chain|
      ensures !StartsWith(line, Chain[k].prefix)
    {
      PrefixClash(line, "IR volume", Chain[k].prefix, 0);
    }
  }

  /** The flagged boundary defect: in multi mode a boundary line appends
      the state with the NEW id and the PREVIOUS volume's fields, and then,
      the id being set, the same state once more. */
  lemma BoundaryPairsNewId(r: IrVdRecord, line: string, vds: seq<IrVdRecord>)
    requires IsBoundary(line) && ParseInt(IdToken(line)).Some?
    ensures var r1 := r.(id := PyInt(ParseInt(IdToken(line)).value));
      LineStep(r, line, true, vds) == Go(r1, vds + [r1, r1])
  {
    BoundaryNotInChain(line);
    var r1 := r.(id := PyInt(ParseInt(IdToken(line)).value));
    assert vds + [r1] + [r1] == vds + [r1, r1];
  }

  /** The flagged every-line defect: once the id is set, a multi-mode run
      that succeeds appends one snapshot per line read plus one more per
      boundary line. */
  lemma {:induction false} EveryLineOnceIdSet(r: IrVdRecord, lines: seq<string>, vds: seq<IrVdRecord>)
    requires !r.id.PyNone?
    ensures Counted(Parse(r, lines, true, vds), vds, |lines| + Boundaries(lines))
    decreases |lines|
  {
    if lines != [] {
      var st := LineStep(r, lines[0], true, vds);
      ParseStep(r, lines, 0, true, vds, st);
      assert lines[0..] == lines;
      if st.Go? {
        var more := if IsBoundary(lines[0]) then 2 else 1;
        assert |st.out| == |vds| + more && vds <= st.out by {
          if IsBoundary(lines[0]) {
            BoundaryNotInChain(lines[0]);
          }
        }
        EveryLineOnceIdSet(st.state, lines[1..], st.out);
        CountedCons(Parse(st.state, lines[1..], true, st.out), vds, st.out[|vds|..], |lines| - 1 + Boundaries(lines[1..]));
        assert vds + st.out[|vds|..] == st.out;
      }
    }
  }

  /** The disk list is never reset: once it exists, every later state of a
      run that goes on holds it as a prefix. */
  predicate KeepsDisks(d: Option<seq<string>>, s: IrVdRecord)
  {
    d.Some? ==> s.disks.Some? && d.value <= s.disks.value
  }

  lemma StepKeepsDisks(r: IrVdRecord, line: string, multi: bool, vds: seq<IrVdRecord>)
    ensures var st := LineStep(r, line, multi, vds);
      st.Go? ==> KeepsDisks(r.disks, st.state)
  {
    var b := if IsBoundary(line) then Boundary(r, line, multi, vds) else Go(r, vds);
    if b.Go? {
      assert b.state.disks == r.disks;
      ChainKeepsDisks(b.state, line);
    }
  }

  lemma ChainKeepsDisks(r: IrVdRecord, line: string)
    ensures var s := SetField(r, line);
      s.Ok? ==> KeepsDisks(r.disks, s.value)
  {
    if Lookup(line, Chain).Some? {
      var a := Assign(r.attrs, line, Chain);
    }
  }

  lemma {:induction false} DisksNeverReset(r: IrVdRecord, lines: seq<string>, multi: bool, vds: seq<IrVdRecord>)
    ensures var run := Parse(r, lines, multi, vds);
      run.parsed.Records? ==> KeepsDisks(r.disks, run.state)
    decreases |lines|
  {
    if lines != [] {
      var st := LineStep(r, lines[0], multi, vds);
      ParseStep(r, lines, 0, multi, vds, st);
      assert lines[0..] == lines;
      if st.Go? {
        StepKeepsDisks(r, lines[0], multi, vds);
        DisksNeverReset(st.state, lines[1..], multi, st.out);
        var last := Parse(st.state, lines[1..], multi, st.out).state;
        if r.disks.Some? && Parse(r, lines, multi, vds).parsed.Records? {
          assert r.disks.value <= st.state.disks.value <= last.disks.value;
        }
      }
    }
  }

  /** A '  PHY' line appends its trimmed value to the list, in order, and
      raises AttributeError when no list exists yet. */
  lemma PhyAppends(r: IrVdRecord, line: string)
    requires IsPhy(line)
    ensures r.disks.None? ==> SetField(r, line) == Err(AttributeError("append"))
    ensures r.disks.Some? ==> SetField(r, line) == Ok(r.(disks := Some(r.disks.value + [AfterColon(line)])))
  {
    PrefixClash(line, "  PHY", "  Physical hard disks", 3);
    forall k | 0 <= k < |Chain|
      ensures !StartsWith(line, Chain[k].prefix)
    {
      PrefixClash(line, "  PHY", Chain[k].prefix, if k == 1 then 3 else 2);
    }
  }

  /** The '  RAID level' branch always fails: its slice end `delim` is not
      defined. */
  lemma RaidLevelNameError(r: IrVdRecord, line: string)
    requires StartsWith(line, "  RAID level")
    ensures SetField(r, line) == Err(NameError("delim"))
  {
    forall k | 0 <= k < 4
      ensures !StartsWith(line, Chain[k].prefix)
    {
      PrefixClash(line, "  RAID level", Chain[k].prefix, 2);
    }
    LookupAt(line, Chain, 4);
  }

  /** The names of the IR `mega` module that `create` uses; that module is
      not part of this model, so they are a parameter. `mega.mega.RAID_10`
      is read as that module's RAID 10 constant. */
  datatype IrConstants = IrConstants(raid0: string, raid1: string, raid10: string, inputMapping: map<string, string>)

  /** The creation command, or UnboundLocalError for a level other than
      RAID 0, 1 and 10 (the command variable is then never bound). */
  function CreateCommand(c: IrConstants, level: string, disks: seq<string>, adapter: PyVal): (cmd: Result<string>)
    ensures cmd.Ok? <==> level in [c.raid0, c.raid1, c.raid10]
    ensures cmd.Err? ==> cmd.error == UnboundLocalError("cmd")
  {
    if level in [c.raid0, c.raid1, c.raid10] then
      var mapped := if level in c.inputMapping then c.inputMapping[level] else "None";
      Ok(adapter.Show() + " CREATE " + mapped + " MAX " + Join(disks, " "))
    else Err(UnboundLocalError("cmd"))
  }

  function FlushCommand(r: IrVdRecord): string
  {
    r.adapter.Show() + " LIST| grep -w 1000 \"IR volume " + r.id.Show() + "\""
  }

  /** `__flush__`: without an adapter or an id nothing is issued; otherwise
      the grep'd listing is parsed in single mode into the object. */
  function FlushSpec(tool: Tool, r: IrVdRecord): (o: Outcome<IrVdRecord>)
    ensures (r.adapter.PyNone? || r.id.PyNone?) <==> o.issued == []
    ensures o.issued == [] ==> o == Outcome(Some(InvalidParameterValue("")), [], r)
    ensures o.issued != [] ==> o.issued == [FlushCommand(r)]
  {
    if r.adapter.PyNone? || r.id.PyNone? then Outcome(Some(InvalidParameterValue("")), [], r)
    else
      var cmd := FlushCommand(r);
      var out := tool(cmd);
      if out.Err? then Outcome(Some(out.error), [cmd], r)
      else
        var run := Parse(r, out.value, false, []);
        Outcome(if run.parsed.Failed? then Some(run.parsed.error) else None, [cmd], run.state)
  }

  /** `create`: the references are checked first, then the command for the
      level is built and run, the new id is read back and the volume is
      flushed. */
  function CreateSpec(tool: Tool, c: IrConstants, level: string, disks: seq<string>, r: IrVdRecord)
    : (o: Outcome<IrVdRecord>)
    ensures FirstBadDisk(disks).Some? ==> o == Outcome(Some(InvalidDiskFormater(FirstBadDisk(disks).value)), [], r)
    ensures FirstBadDisk(disks).None? && !(level in [c.raid0, c.raid1, c.raid10]) ==>
      o == Outcome(Some(UnboundLocalError("cmd")), [], r)
    ensures FirstBadDisk(disks).None? && level in [c.raid0, c.raid1, c.raid10] ==>
      |o.issued| >= 1 && o.issued[0] == CreateCommand(c, level, disks, r.adapter).value
  {
    var bad := FirstBadDisk(disks);
    if bad.Some? then Outcome(Some(InvalidDiskFormater(bad.value)), [], r)
    else
      var cmd := CreateCommand(c, level, disks, r.adapter);
      if cmd.Err? then Outcome(Some(cmd.error), [], r)
      else
        var out := tool(cmd.value);
        if out.Err? then Outcome(Some(out.error), [cmd.value], r)
        else
          var created := r.(id := RecoveredId(out.value));
          if !created.id.Truthy() then Outcome(Some(MegaCLIError("")), [cmd.value], created)
          else
            var flush := FlushSpec(tool, created);
            Outcome(flush.err, [cmd.value] + flush.issued, flush.state)
  }

  function DestroyCommand(r: IrVdRecord): string
  {
    r.adapter.Show() + " DELETEVOLUME " + (if "volume_id" in r.attrs then r.attrs["volume_id"] else PyNone).Show()
  }

  /** `destroy`: flush, delete the volume by its volume id, forget the id. */
  function DestroySpec(tool: Tool, r: IrVdRecord): (o: Outcome<IrVdRecord>)
    ensures FlushSpec(tool, r).issued <= o.issued
    ensures o.err.None? ==> o.state.id.PyNone? && |o.issued| == |FlushSpec(tool, r).issued| + 1
  {
    var flush := FlushSpec(tool, r);
    if flush.err.Some? then flush
    else
      var cmd := DestroyCommand(flush.state);
      var out := tool(cmd);
      if out.Err? then Outcome(Some(out.error), flush.issued + [cmd], flush.state)
      else Outcome(None, flush.issued + [cmd], flush.state.(id := PyNone))
  }

  /** A create with well-formed references whose output names no new volume
      ends with MegaCLIError and the id unset, after issuing only the
      creation command. */
  lemma CreateWithoutId(tool: Tool, c: IrConstants, level: string, disks: seq<string>, r: IrVdRecord)
    requires FirstBadDisk(disks).None? && level in [c.raid0, c.raid1, c.raid10]
    requires var out := tool(CreateCommand(c, level, disks, r.adapter).value);
      out.Ok? && forall k :: 0 <= k < |out.value| ==> CreatedAt(out.value[k]) < 0
    ensures CreateSpec(tool, c, level, disks, r)
      == Outcome(Some(MegaCLIError("")), [CreateCommand(c, level, disks, r.adapter).value], r.(id := PyNone))
  {
    var k := RecoveredIdFirst(tool(CreateCommand(c, level, disks, r.adapter).value).value);
  }

  /** A destroy that succeeds has issued the flush and then the delete
      command for the flushed volume id, and leaves the id unset. */
  lemma DestroyForgetsId(tool: Tool, r: IrVdRecord)
    ensures var o := DestroySpec(tool, r);
      o.err.None? ==> (o.state.id.PyNone? && |o.issued| == 2
        && o.issued[0] == FlushCommand(r) && o.issued[1] == DestroyCommand(FlushSpec(tool, r).state))
  {
  }

  /** A `VirtualDriver` object. */
  class VirtualDriver {
    var adapter: PyVal
    var id: PyVal
    var attrs: Attrs
    var disks: Option<seq<string>>

    /** `self.copy()`. */
    function Snapshot(): IrVdRecord
      reads this
    {
      IrVdRecord(adapter, id, attrs, disks)
    }

    constructor (adapterId: PyVal, id: PyVal)
      ensures Snapshot() == Initial(adapterId, id)
    {
      adapter := adapterId;
      this.id := id;
      attrs := InitialAttrs;
      disks := None;
    }

    /** The boundary branch. */
    method ReadBoundary(line: string, multi: bool, vds: seq<IrVdRecord>) returns (st: Step<IrVdRecord>)
      modifies this
      ensures st == Boundary(old(Snapshot()), line, multi, vds)
      ensures st.Go? ==> Snapshot() == st.state
      ensures st.Stop? ==> Snapshot() == st.run.state
    {
      if !multi && |vds| > 0 {
        return Stop(Run(Snapshot(), First(vds[0])));
      }
      var v := IntValue(IdToken(line));
      if v.Err? {
        return Stop(Run(Snapshot(), Failed(v.error)));
      }
      id := v.value;
      st := Go(Snapshot(), if multi then vds + [Snapshot()] else vds);
    }

    /** The elif chain for one line. */
    method ApplyField(line: string) returns (err: Option<Error>)
      modifies this
      ensures var s := SetField(old(Snapshot()), line);
        && (s.Ok? ==> err.None? && Snapshot() == s.value)
        && (s.Err? ==> err == Some(s.error) && Snapshot() == old(Snapshot()))
    {
      err := None;
      var f := Lookup(line, Chain);
      if f.Some? {
        var v := Convert(f.value.conv, line);
        if v.Err? {
          return Some(v.error);
        }
        attrs := attrs[f.value.attr := v.value];
      } else if IsDisksHeader(line) {
        if NoDisks(disks) {
          disks := Some([]);
        }
      } else if IsPhy(line) {
        if disks.None? {
          return Some(AttributeError("append"));
        }
        disks := Some(disks.value + [AfterColon(line)]);
      }
    }

    /** One pass of the loop body of `_handle`. */
    method HandleLine(line: string, multi: bool, vds: seq<IrVdRecord>) returns (st: Step<IrVdRecord>)
      modifies this
      ensures st == LineStep(old(Snapshot()), line, multi, vds)
      ensures st.Go? ==> Snapshot() == st.state
      ensures st.Stop? ==> Snapshot() == st.run.state
    {
      var b := Go(Snapshot(), vds);
      if IsBoundary(line) {
        b := ReadBoundary(line, multi, vds);
        if b.Stop? {
          return b;
        }
      }
      var err := ApplyField(line);
      if err.Some? {
        return Stop(Run(Snapshot(), Failed(err.value)));
      }
      st := Go(Snapshot(), if id.PyNone? then b.out else b.out + [Snapshot()]);
    }

    /** `_handle`: the object is the accumulator; nothing is appended after
        the loop. */
    method Handle(lines: seq<string>, multi: bool) returns (out: Parsed<IrVdRecord>)
      modifies this
      ensures Run(Snapshot(), out) == Parse(old(Snapshot()), lines, multi, [])
    {
      var vds: seq<IrVdRecord> := [];
      var i := 0;
      while i < |lines|
        invariant 0 <= i <= |lines|
        invariant Parse(Snapshot(), lines[i..], multi, vds) == Parse(old(Snapshot()), lines, multi, [])
      {
        ghost var r := Snapshot();
        var st := HandleLine(lines[i], multi, vds);
        ParseStep(r, lines, i, multi, vds, st);
        if st.Stop? {
          return st.run.parsed;
        }
        vds := st.out;
        i := i + 1;
      }
      out := Records(vds);
    }

    /** `__flush__`. */
    method Flush(tool: Tool) returns (err: Option<Error>, issued: seq<string>)
      modifies this
      ensures Outcome(err, issued, Snapshot()) == FlushSpec(tool, old(Snapshot()))
    {
      if adapter.PyNone? || id.PyNone? {
        return Some(InvalidParameterValue("")), [];
      }
      var cmd := FlushCommand(Snapshot());
      issued := [cmd];
      var ret := tool(cmd);
      if ret.Err? {
        return Some(ret.error), issued;
      }
      var parsed := Handle(ret.value, false);
      err := if parsed.Failed? then Some(parsed.error) else None;
    }

    /** `create`. */
    method Create(tool: Tool, c: IrConstants, raidLevel: string, disks: seq<string>)
      returns (err: Option<Error>, issued: seq<string>)
      modifies this
      ensures Outcome(err, issued, Snapshot()) == CreateSpec(tool, c, raidLevel, disks, old(Snapshot()))
    {
      var bad := FirstBadDisk(disks);
      if bad.Some? {
        return Some(InvalidDiskFormater(bad.value)), [];
      }
      var cmd := CreateCommand(c, raidLevel, disks, adapter);
      if cmd.Err? {
        return Some(cmd.error), [];
      }
      issued := [cmd.value];
      var ret := tool(cmd.value);
      if ret.Err? {
        return Some(ret.error), issued;
      }
      id := RecoverId(ret.value);
      if !id.Truthy() {
        return Some(MegaCLIError("")), issued;
      }
      var more;
      err, more := Flush(tool);
      issued := issued + more;
    }

    /** `destroy`. */
    method Destroy(tool: Tool) returns (err: Option<Error>, issued: seq<string>)
      modifies this
      ensures Outcome(err, issued, Snapshot()) == DestroySpec(tool, old(Snapshot()))
    {
      err, issued := Flush(tool);
      if err.Some? {
        return;
      }
      var cmd := DestroyCommand(Snapshot());
      issued := issued + [cmd];
      var ret := tool(cmd);
      if ret.Err? {
        return Some(ret.error), issued;
      }
      id := PyNone;
    }

    /** `getall_virtual_drivers`: every volume of the adapter, in multi
        mode. */
    method GetAll(tool: Tool) returns (result: Parsed<IrVdRecord>, issued: seq<string>)
      modifies this
      ensures old(adapter).PyNone? ==>
        result == Failed(InvalidParameterValue("")) && issued == [] && Snapshot() == old(Snapshot())
      ensures !old(adapter).PyNone? ==> issued == [old(adapter).Show() + " LIST"]
      ensures !old(adapter).PyNone? && tool(old(adapter).Show() + " LIST").Err? ==>
        result == Failed(tool(old(adapter).Show() + " LIST").error) && Snapshot() == old(Snapshot())
      ensures !old(adapter).PyNone? && tool(old(adapter).Show() + " LIST").Ok? ==>
        Run(Snapshot(), result) == Parse(old(Snapshot()), tool(old(adapter).Show() + " LIST").value, true, [])
    {
      if adapter.PyNone? {
        return Failed(InvalidParameterValue("")), [];
      }
      var cmd := adapter.Show() + " LIST";
      issued := [cmd];
      var ret := tool(cmd);
      if ret.Err? {
        return Failed(ret.error), issued;
      }
      result := Handle(ret.value, true);
    }
  }
}
