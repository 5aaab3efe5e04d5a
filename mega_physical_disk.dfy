/** The MegaCLI physical disk: the parser of `-PdList` / `-PdInfo` output,
    the command `get_physical_disks` chooses and the guard of `__flush__`.

    As written, `_handle` appends a snapshot after EVERY line it reads, not
    once per record (megautils/raid/physical_disk.py:160): the list it
    returns has one entry per line. The model keeps that behaviour; see
    EveryLineSnapshot.

    The loop also names `retstr.readlines` without calling it
    (megautils/raid/physical_disk.py:78). The output `command` returns is a
    `str`, which has no `readlines`, so as written `_handle` raises
    AttributeError before it reads a line (HandleAsWritten,
    ReadlinesUncalled). `Parse` and `PhysicalDisk.Handle` model the loop
    over the output's lines that the code evidently intends. */
module MegaPhysicalDisk {
  import opened Lists
  import opened Text
  import opened Common
  import opened Fields

  /** The attributes of a `PhysicalDisk` object: the adapter, enclosure and
      slot, which the commands read, and the descriptive attributes by name. */
  datatype PdRecord = PdRecord(adapter: PyVal, enclosure: PyVal, slot: PyVal, attrs: Attrs)

  /** The descriptive attributes `__init__` sets: the id and the counters are
      0, every text attribute is empty. */
  const InitialAttrs: Attrs := map[
    "id" := PyInt(0), "sequence_number" := PyInt(0), "media_errors" := PyInt(0),
    "other_errors" := PyInt(0), "predictive_failures" := PyInt(0),
    "last_predictive_seq_number" := PyInt(0), "pd_type" := PyStr(""), "raw_size" := PyStr(""),
    "non_coerced_size" := PyStr(""), "wwn" := PyStr(""), "coerced_size" := PyStr(""),
    "firmware_state" := PyStr(""), "sas_address" := PyStr(""), "connected_port_number" := PyStr(""),
    "inquiry_data" := PyStr(""), "fde_capable" := PyStr(""), "fde_enable" := PyStr(""),
    "secured" := PyStr(""), "locked" := PyStr(""), "foreign_state" := PyStr(""),
    "device_speed" := PyStr(""), "link_speed" := PyStr(""), "media_type" := PyStr("")]

  function Initial(enclosure: PyVal, slot: PyVal, adapter: PyVal): PdRecord
  {
    PdRecord(adapter, enclosure, slot, InitialAttrs)
  }

  /** A record starts at a line beginning 'Enclosure Device ID'. */
  predicate IsBoundary(line: string)
  {
    StartsWith(line, "Enclosure Device ID")
  }

  /** The head of the elif chain, which sets the slot. */
  predicate IsSlotLine(line: string)
  {
    StartsWith(line, "Slot Number")
  }

  /** The rest of the elif chain, in chain order. The three sizes are cut
      four characters before the '[' (the unit, e.g. " GB "); the model keeps
      the cut text that the source passes to `float()`. */
  const Chain: seq<Field> := [
    Field("Device Id", "id", Int), Field("WWN", "wwn", Str),
    Field("Sequence Number", "sequence_number", Int), Field("Media Error Count", "media_errors", Int),
    Field("Other Error Count", "other_errors", Int),
    Field("Predictive Failure Count", "predictive_failures", Int),
    Field("Last Predictive Failure Event Seq Number", "last_predictive_seq_number", Int),
    Field("PD Type", "pd_type", Str), Field("Raw Size", "raw_size", StrTo("[", 4)),
    Field("Non Coerced Size", "non_coerced_size", StrTo("[", 4)),
    Field("Coerced Size", "coerced_size", StrTo("[", 4)), Field("Firmware state", "firmware_state", Str),
    Field("SAS Address", "sas_address", Str), Field("Connected Port Number", "connected_port_number", Str),
    Field("Inquiry Data", "inquiry_data", Str), Field("FDE Capable", "fde_capable", Str),
    Field("FDE Enable", "fde_enable", Str), Field("Secured", "secured", Str), Field("Locked", "locked", Str),
    Field("Foreign State", "foreign_state", Str), Field("Device Speed", "device_speed", Str),
    Field("Link Speed", "link_speed", Str), Field("Media Type", "media_type", Str)]

  /** The boundary's `self.enclosure = int(...)`. */
  function SetEnclosure(r: PdRecord, line: string): (s: Result<PdRecord>)
    ensures s.Ok? <==> ParseInt(AfterColon(line)).Some?
    ensures s.Ok? ==> s.value == r.(enclosure := PyInt(ParseInt(AfterColon(line)).value))
  {
    var v := IntValue(AfterColon(line));
    if v.Err? then Err(v.error) else Ok(r.(enclosure := v.value))
  }

  /** The elif chain, run on every line (boundary lines included): the slot
      branch first, then the table; it never touches the adapter or the
      enclosure, and writes at most one attribute. */
  function SetField(r: PdRecord, line: string): (s: Result<PdRecord>)
    ensures s.Ok? ==> s.value.adapter == r.adapter && s.value.enclosure == r.enclosure
    ensures IsSlotLine(line) ==>
      (s.Ok? <==> ParseInt(AfterColon(line)).Some?)
      && (s.Ok? ==> s.value == r.(slot := PyInt(ParseInt(AfterColon(line)).value)))
    ensures !IsSlotLine(line) && s.Ok? ==> s.value.slot == r.slot
    ensures !IsSlotLine(line) && Lookup(line, Chain).None? ==> s == Ok(r)
  {
    if IsSlotLine(line) then
      var v := IntValue(AfterColon(line));
      if v.Err? then Err(v.error) else Ok(r.(slot := v.value))
    else
      var a := Assign(r.attrs, line, Chain);
      if a.Err? then Err(a.error) else Ok(r.(attrs := a.value))
  }

  /** The body of the loop of `_handle` for one line. At a boundary, single
      mode returns the first snapshot once one exists; otherwise the
      enclosure is read. Then the chain runs, and the state is appended. */
  function LineStep(r: PdRecord, line: string, multi: bool, pds: seq<PdRecord>): (st: Step<PdRecord>)
    ensures IsBoundary(line) && !multi && |pds| > 0 ==> st == Stop(Run(r, First(pds[0])))
    ensures st.Stop? && !(IsBoundary(line) && !multi && |pds| > 0) ==> st.run.parsed.Failed?
    ensures st.Go? ==> st.out == pds + [st.state] && st.state.adapter == r.adapter
    ensures st.Go? && IsBoundary(line) ==>
      ParseInt(AfterColon(line)).Some? && st.state.enclosure == PyInt(ParseInt(AfterColon(line)).value)
    ensures st.Go? && !IsBoundary(line) ==> st.state.enclosure == r.enclosure
  {
    if IsBoundary(line) && !multi && |pds| > 0 then Stop(Run(r, First(pds[0])))
    else
      var r1 := if IsBoundary(line) then SetEnclosure(r, line) else Ok(r);
      if r1.Err? then Stop(Run(r, Failed(r1.error)))
      else
        var r2 := SetField(r1.value, line);
        if r2.Err? then Stop(Run(r1.value, Failed(r2.error)))
        else Go(r2.value, pds + [r2.value])
  }

  /** `_handle` as a fold over the lines; nothing is appended after the
      loop. */
  function Parse(r: PdRecord, lines: seq<string>, multi: bool, pds: seq<PdRecord>): Run<PdRecord>
    decreases |lines|
  {
    if lines == [] then Run(r, Records(pds))
    else
      match LineStep(r, lines[0], multi, pds)
      case Stop(run) => run
      case Go(r1, pds1) => Parse(r1, lines[1..], multi, pds1)
  }

  /** One step of the fold, from line i on. */
  lemma ParseStep(r: PdRecord, lines: seq<string>, i: nat, multi: bool, pds: seq<PdRecord>, st: Step<PdRecord>)
    requires i < |lines| && st == LineStep(r, lines[i], multi, pds)
    ensures Parse(r, lines[i..], multi, pds)
      == if st.Stop? then st.run else Parse(st.state, lines[i + 1..], multi, st.out)
  {
    assert lines[i..][0] == lines[i] && lines[i..][1..] == lines[i + 1..];
  }

  /** A run that succeeds lists one snapshot per line after the `pds` it
      started with, the last of them the final state. */
  predicate OnePerLine(run: Run<PdRecord>, pds: seq<PdRecord>, n: nat)
  {
    run.parsed.Records? ==>
      && |run.parsed.records| == |pds| + n
      && pds <= run.parsed.records
      && (n > 0 ==> run.parsed.records[|pds| + n - 1] == run.state)
  }

  lemma OnePerLineCons(run: Run<PdRecord>, pds: seq<PdRecord>, x: PdRecord, n: nat)
    requires n > 0 && OnePerLine(run, pds + [x], n)
    ensures OnePerLine(run, pds, n + 1)
  {
  }

  /** The flagged defect: in multi mode a parse that succeeds returns one
      snapshot per line read, not one per record, and the last one is the
      object's final state. */
  lemma {:induction false} EveryLineSnapshot(r: PdRecord, lines: seq<string>, pds: seq<PdRecord>)
    ensures OnePerLine(Parse(r, lines, true, pds), pds, |lines|)
    decreases |lines|
  {
    if lines != [] {
      var st := LineStep(r, lines[0], true, pds);
      ParseStep(r, lines, 0, true, pds, st);
      assert lines[0..] == lines;
      if st.Go? {
        var tail := lines[1..];
        var rest := Parse(st.state, tail, true, st.out);
        assert st.out == pds + [st.state];
        if tail == [] {
          assert OnePerLine(rest, pds, |lines|);
        } else {
          EveryLineSnapshot(st.state, tail, st.out);
          OnePerLineCons(rest, pds, st.state, |tail|);
        }
      }
    }
  }

  /** `_handle` as written: `retstr` is the `str` that `command` returns,
      which has no attribute `readlines`, so the `for` statement raises
      AttributeError before any line is read, whatever the output holds,
      and the object keeps its state. */
  function HandleAsWritten(r: PdRecord, lines: seq<string>, multi: bool): (run: Run<PdRecord>)
    ensures run.state == r && run.parsed.Failed? && run.parsed.error == AttributeError("readlines")
  {
    Run(r, Failed(AttributeError("readlines")))
  }

  /** A run that fails raised one of the errors of the chain's conversions:
      ValueError from `int()`, or NameError for an undefined name. */
  predicate ChainErrorsOnly(run: Run<PdRecord>)
  {
    run.parsed.Failed? ==> run.parsed.error.ValueError? || run.parsed.error.NameError?
  }

  /** The flagged defect: as written `_handle` fails with AttributeError on
      every output, while the loop over the output's lines only ever raises
      ValueError or NameError, so the two differ on every input; in
      particular an output with no line lists no disk instead of failing. */
  lemma {:induction false} ReadlinesUncalled(r: PdRecord, lines: seq<string>, multi: bool, pds: seq<PdRecord>)
    ensures HandleAsWritten(r, lines, multi).parsed == Failed(AttributeError("readlines"))
    ensures ChainErrorsOnly(Parse(r, lines, multi, pds))
    ensures HandleAsWritten(r, lines, multi).parsed != Parse(r, lines, multi, pds).parsed
    ensures Parse(r, [], multi, pds).parsed == Records(pds)
    decreases |lines|
  {
    if lines != [] {
      var st := LineStep(r, lines[0], multi, pds);
      ParseStep(r, lines, 0, multi, pds, st);
      assert lines[0..] == lines;
      if st.Go? {
        ReadlinesUncalled(st.state, lines[1..], multi, st.out);
      } else {
        StepErrors(r, lines[0], multi, pds);
      }
    }
  }

  lemma StepErrors(r: PdRecord, line: string, multi: bool, pds: seq<PdRecord>)
    ensures LineStep(r, line, multi, pds).Stop? ==> ChainErrorsOnly(LineStep(r, line, multi, pds).run)
  {
    var r1 := if IsBoundary(line) then SetEnclosure(r, line) else Ok(r);
    if r1.Ok? {
      FieldErrors(r1.value, line);
    }
  }

  lemma FieldErrors(r: PdRecord, line: string)
    ensures SetField(r, line).Err? ==> SetField(r, line).error.ValueError? || SetField(r, line).error.NameError?
  {
    if !IsSlotLine(line) {
      var f := Lookup(line, Chain);
      if f.Some? {
        var v := Convert(f.value.conv, line);
      }
    }
  }

  /** Single mode returns early at a boundary line met once a snapshot
      exists; `started` says whether one exists before the first line. */
  predicate ReturnsEarly(lines: seq<string>, started: bool)
    decreases |lines|
  {
    lines != [] && ((IsBoundary(lines[0]) && started) || ReturnsEarly(lines[1..], true))
  }

  /** Single mode agrees with multi mode: without a boundary to stop at it
      runs exactly like multi mode; with one, it returns the first snapshot
      multi mode lists. */
  lemma {:induction false} SingleAgreesWithMulti(r: PdRecord, lines: seq<string>, pds: seq<PdRecord>)
    ensures !ReturnsEarly(lines, |pds| > 0) ==> Parse(r, lines, false, pds) == Parse(r, lines, true, pds)
    ensures var multi := Parse(r, lines, true, pds).parsed;
      ReturnsEarly(lines, |pds| > 0) && multi.Records? ==>
        |multi.records| > 0 && Parse(r, lines, false, pds).parsed == First(multi.records[0])
    decreases |lines|
  {
    if lines != [] {
      var line := lines[0];
      if IsBoundary(line) && |pds| > 0 {
        EveryLineSnapshot(r, lines, pds);
      } else {
        var st := LineStep(r, line, true, pds);
        assert LineStep(r, line, false, pds) == st;
        if st.Go? {
          SingleAgreesWithMulti(st.state, lines[1..], st.out);
        }
      }
    }
  }

  /** No branch of the chain takes a boundary line: no label starts with
      'E'. */
  lemma BoundaryNotInChain(line: string)
    requires IsBoundary(line)
    ensures !IsSlotLine(line) && Lookup(line, Chain).None?
  {
    PrefixClash(line, "Enclosure Device ID", "Slot Number", 0);
    forall k | 0 <= k < |Chain|
      ensures !StartsWith(line, Chain[k].prefix)
    {
      PrefixClash(line, "Enclosure Device ID", Chain[k].prefix, 0);
    }
  }

  /** A boundary line sets the enclosure and nothing else. */
  lemma BoundaryOnlyEnclosure(r: PdRecord, line: string, pds: seq<PdRecord>)
    requires IsBoundary(line) && ParseInt(AfterColon(line)).Some?
    ensures LineStep(r, line, true, pds)
      == Go(r.(enclosure := PyInt(ParseInt(AfterColon(line)).value)),
            pds + [r.(enclosure := PyInt(ParseInt(AfterColon(line)).value))])
  {
    BoundaryNotInChain(line);
  }

  /** A line that starts with 'Raw Size' is taken by the 'Raw Size' branch. */
  lemma RawSizeBranch(line: string)
    requires StartsWith(line, "Raw Size")
    ensures Lookup(line, Chain) == Some(Field("Raw Size", "raw_size", StrTo("[", 4)))
  {
    forall k | 0 <= k < 8
      ensures !StartsWith(line, Chain[k].prefix)
    {
      PrefixClash(line, "Raw Size", Chain[k].prefix, 0);
    }
    LookupAt(line, Chain, 8);
  }

  /** `Raw Size: <v><4 characters>[<tail>`, e.g. "Raw Size: 136.732 GB
      [0x1117e2b0 Sectors]", stores v stripped ("136.732"). */
  lemma RawSizeField(r: PdRecord, head: string, v: string, unit: string, tail: string)
    requires StartsWith(head, "Raw Size") && !Contains(head, ":")
    requires |unit| == 4 && !Contains(head + ":" + v + unit, "[")
    ensures SetField(r, head + ":" + v + unit + "[" + tail)
      == Ok(r.(attrs := r.attrs["raw_size" := PyStr(Strip(v))]))
  {
    var line := head + ":" + v + unit + "[" + tail;
    StartsWithExtend(head, "Raw Size", ":");
    StartsWithExtend(head + ":", "Raw Size", v);
    StartsWithExtend(head + ":" + v, "Raw Size", unit);
    StartsWithExtend(head + ":" + v + unit, "Raw Size", "[");
    StartsWithExtend(head + ":" + v + unit + "[", "Raw Size", tail);
    PrefixClash(line, "Raw Size", "Slot Number", 0);
    RawSizeBranch(line);
    CutBack(head, v, unit, '[', tail);
  }

  /** The command `get_physical_disks` issues: every disk of every adapter
      without an adapter, the one disk when enclosure and slot are both set,
      every disk of the adapter otherwise. */
  function ListCommand(r: PdRecord): (cmd: string)
    ensures !r.adapter.Truthy() ==> cmd == "-PdList -aALL"
    ensures r.adapter.Truthy() && r.enclosure.Truthy() && r.slot.Truthy() ==> cmd == InfoCommand(r)
    ensures r.adapter.Truthy() && !(r.enclosure.Truthy() && r.slot.Truthy()) ==>
      cmd == "-PdList -a" + r.adapter.Show()
  {
    if !r.adapter.Truthy() then "-PdList -aALL"
    else if r.enclosure.Truthy() && r.slot.Truthy() then InfoCommand(r)
    else "-PdList -a" + r.adapter.Show()
  }

  function InfoCommand(r: PdRecord): string
  {
    "-PdInfo -PhysDrv [" + r.enclosure.Show() + ":" + r.slot.Show() + "] -a" + r.adapter.Show()
  }

  /** `__flush__`: enclosure, slot and adapter must all be truthy (so
      enclosure 0 or slot 0 is refused) before the disk's `-PdInfo` output is
      parsed, in multi mode, into the object. */
  function FlushSpec(tool: Tool, r: PdRecord): (o: Outcome<PdRecord>)
    ensures !(r.enclosure.Truthy() && r.slot.Truthy() && r.adapter.Truthy()) <==> o.issued == []
    ensures o.issued == [] ==> o == Outcome(Some(InvalidParameterValue("")), [], r)
    ensures o.issued != [] ==> o.issued == [InfoCommand(r)]
  {
    if !r.enclosure.Truthy() || !r.slot.Truthy() || !r.adapter.Truthy() then
      Outcome(Some(InvalidParameterValue("")), [], r)
    else
      var cmd := InfoCommand(r);
      var out := tool(cmd);
      if out.Err? then Outcome(Some(out.error), [cmd], r)
      else
        var run := Parse(r, out.value, true, []);
        Outcome(if run.parsed.Failed? then Some(run.parsed.error) else None, [cmd], run.state)
  }

  /** A `PhysicalDisk` object. */
  class PhysicalDisk {
    var adapter: PyVal
    var enclosure: PyVal
    var slot: PyVal
    var attrs: Attrs

    /** `copy.deepcopy(self)`. */
    function Snapshot(): PdRecord
      reads this
    {
      PdRecord(adapter, enclosure, slot, attrs)
    }

    constructor (enclosure: PyVal, slot: PyVal, adapter: PyVal)
      ensures Snapshot() == Initial(enclosure, slot, adapter)
    {
      this.adapter := adapter;
      this.enclosure := enclosure;
      this.slot := slot;
      attrs := InitialAttrs;
    }

    /** The elif chain for one line. */
    method ApplyField(line: string) returns (err: Option<Error>)
      modifies this
      ensures var s := SetField(old(Snapshot()), line);
        && (s.Ok? ==> err.None? && Snapshot() == s.value)
        && (s.Err? ==> err == Some(s.error) && Snapshot() == old(Snapshot()))
    {
      err := None;
      if IsSlotLine(line) {
        var v := IntValue(AfterColon(line));
        if v.Err? {
          return Some(v.error);
        }
        slot := v.value;
        return;
      }
      var f := Lookup(line, Chain);
      if f.Some? {
        var v := Convert(f.value.conv, line);
        if v.Err? {
          return Some(v.error);
        }
        attrs := attrs[f.value.attr := v.value];
      }
    }

    /** One pass of the loop body of `_handle`. */
    method HandleLine(line: string, multi: bool, pds: seq<PdRecord>) returns (st: Step<PdRecord>)
      modifies this
      ensures st == LineStep(old(Snapshot()), line, multi, pds)
      ensures st.Go? ==> Snapshot() == st.state
      ensures st.Stop? ==> Snapshot() == st.run.state
    {
      if IsBoundary(line) {
        if !multi && |pds| > 0 {
          return Stop(Run(Snapshot(), First(pds[0])));
        }
        var v := IntValue(AfterColon(line));
        if v.Err? {
          return Stop(Run(Snapshot(), Failed(v.error)));
        }
        enclosure := v.value;
      }
      var err := ApplyField(line);
      if err.Some? {
        return Stop(Run(Snapshot(), Failed(err.value)));
      }
      st := Go(Snapshot(), pds + [Snapshot()]);
    }

    /** `_handle`: the object is the accumulator; every line appends a
        snapshot to `pds`. */
    method Handle(lines: seq<string>, multi: bool) returns (out: Parsed<PdRecord>)
      modifies this
      ensures Run(Snapshot(), out) == Parse(old(Snapshot()), lines, multi, [])
    {
      var pds: seq<PdRecord> := [];
      var i := 0;
      while i < |lines|
        invariant 0 <= i <= |lines|
        invariant Parse(Snapshot(), lines[i..], multi, pds) == Parse(old(Snapshot()), lines, multi, [])
      {
        ghost var r := Snapshot();
        var st := HandleLine(lines[i], multi, pds);
        ParseStep(r, lines, i, multi, pds, st);
        if st.Stop? {
          return st.run.parsed;
        }
        pds := st.out;
        i := i + 1;
      }
      out := Records(pds);
    }

    /** `__flush__`. */
    method Flush(tool: Tool) returns (err: Option<Error>, issued: seq<string>)
      modifies this
      ensures Outcome(err, issued, Snapshot()) == FlushSpec(tool, old(Snapshot()))
    {
      if !enclosure.Truthy() || !slot.Truthy() || !adapter.Truthy() {
        return Some(InvalidParameterValue("")), [];
      }
      var cmd := InfoCommand(Snapshot());
      issued := [cmd];
      var ret := tool(cmd);
      if ret.Err? {
        return Some(ret.error), issued;
      }
      var parsed := Handle(ret.value, true);
      err := if parsed.Failed? then Some(parsed.error) else None;
    }

    /** `get_physical_disks`: issue the chosen listing command and parse its
        output in multi mode. */
    method GetPhysicalDisks(tool: Tool) returns (result: Parsed<PdRecord>, cmd: string)
      modifies this
      ensures cmd == ListCommand(old(Snapshot()))
      ensures tool(cmd).Err? ==> result == Failed(tool(cmd).error) && Snapshot() == old(Snapshot())
      ensures tool(cmd).Ok? ==> Run(Snapshot(), result) == Parse(old(Snapshot()), tool(cmd).value, true, [])
    {
      if !adapter.Truthy() {
        cmd := "-PdList -aALL";
      } else if enclosure.Truthy() && slot.Truthy() {
        cmd := InfoCommand(Snapshot());
      } else {
        cmd := "-PdList -a" + adapter.Show();
      }
      var ret := tool(cmd);
      if ret.Err? {
        return Failed(ret.error), cmd;
      }
      result := Handle(ret.value, true);
    }
  }
}
