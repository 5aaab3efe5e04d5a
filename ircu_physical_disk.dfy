/** The SAS IR physical disk (`raid_ircu` physical disk): the parser of the
    IR tool's `LIST` output, the guard of `__flush__` and
    `get_physical_disks`.

    Ids are not read from the output: the n-th '  Enclosure' line gives the
    disk the id n (counting from 0). Parsing ends at the first line starting
    'Device is a Enclosure'. Three behaviours are reproduced as written and
    flagged where they are proved: once the id is set a snapshot is appended
    after EVERY line (physical_disk.py:107-108); `firmware_state` is never
    assigned and keeps its default 'Online', so the IR allocator's filter
    rejects every parsed disk (physical_disk.py:39); and the '  Drive Type'
    branch slices with the name `delim`, which the module never defines, so
    it always raises NameError (physical_disk.py:104-106). */
module IrcuPhysicalDisk {
  import opened Lists
  import opened Text
  import opened Common
  import opened Fields

  /** The attributes of a `PhysicalDisk` object: the adapter, enclosure,
      slot, id and firmware state, and the descriptive attributes by name.
      `sas_address` is not set by `__init__`, so it is absent until a line
      sets it. */
  datatype IrPdRecord = IrPdRecord(adapter: PyVal, enclosure: PyVal, slot: PyVal, id: PyVal,
                                   firmwareState: PyVal, attrs: Attrs)

  /** The descriptive attributes `__init__` sets: the size is 0 and every
      text attribute empty. */
  const InitialAttrs: Attrs := map[
    "pi_supported" := PyStr(""), "size" := PyInt(0), "manufacturer" := PyStr(""),
    "model_number" := PyStr(""), "firmware_revision" := PyStr(""), "serial_no" := PyStr(""),
    "unit_serial_no" := PyStr(""), "guid" := PyStr(""), "protocol" := PyStr(""),
    "drive_type" := PyStr("")]

  function Initial(enclosure: PyVal, slot: PyVal, adapter: PyVal): IrPdRecord
  {
    IrPdRecord(adapter, enclosure, slot, PyNone, PyStr("Online"), InitialAttrs)
  }

  /** A disk starts at a line beginning '  Enclosure'. */
  predicate IsBoundary(line: string)
  {
    StartsWith(line, "  Enclosure")
  }

  /** The head of the elif chain, which sets the slot. */
  predicate IsSlotLine(line: string)
  {
    StartsWith(line, "  Slot")
  }

  /** The line after which the loop breaks. */
  predicate IsTerminator(line: string)
  {
    StartsWith(line, "Device is a Enclosure")
  }

  /** The rest of the elif chain, in chain order. The size is the integer
      between the colon and the first '/'. */
  const Chain: seq<Field> := [
    Field("  PI Supported", "pi_supported", Int), Field("  SAS Address", "sas_address", Str),
    Field("  Size", "size", IntTo("/", 0)), Field("  Manufacturer", "manufacturer", Int),
    Field("  Model Number", "model_number", Int), Field("  Firmware Revision", "firmware_revision", Int),
    Field("  Serial No", "serial_no", Int), Field("  Unit Serial No", "unit_serial_no", Str),
    Field("  GUID", "guid", Str), Field("  Protocol", "protocol", Str),
    Field("  Drive Type", "drive_type", Undefined("delim"))]

  /** The elif chain, run on every line (boundary lines included): the slot
      branch first, then the table. It never touches the adapter, the
      enclosure, the id or the firmware state. */
  function SetField(r: IrPdRecord, line: string): (s: Result<IrPdRecord>)
    ensures s.Ok? ==> (s.value.adapter == r.adapter && s.value.enclosure == r.enclosure && s.value.id == r.id
      && s.value.firmwareState == r.firmwareState)
    ensures IsSlotLine(line) ==>
      (s.Ok? <==> ParseInt(AfterColon(line)).Some?)
      && (s.Ok? ==> s.value == r.(slot := PyInt(ParseInt(AfterColon(line)).value)))
    ensures !IsSlotLine(line) && Lookup(line, Chain).None? ==> s == Ok(r)
  {
    if IsSlotLine(line) then
      var v := IntValue(AfterColon(line));
      if v.Err? then Err(v.error) else Ok(r.(slot := v.value))
    else
      var a := Assign(r.attrs, line, Chain);
      if a.Err? then Err(a.error) else Ok(r.(attrs := a.value))
  }

  /** The boundary branch, with n boundaries seen before: single mode
      returns the first snapshot once one exists; otherwise a disk that has
      an id is appended, the id becomes n and the enclosure is read. */
  function Boundary(r: IrPdRecord, line: string, multi: bool, pds: seq<IrPdRecord>, n: nat): (st: Step<IrPdRecord>)
    ensures !multi && |pds| > 0 ==> st == Stop(Run(r, First(pds[0])))
    ensures st.Stop? && !(!multi && |pds| > 0) ==> st.run.parsed.Failed?
    ensures st.Go? ==> (st.state.id == PyInt(n) && st.state.adapter == r.adapter && st.state.firmwareState == r.firmwareState
      && st.out == (if r.id.PyNone? then pds else pds + [r]))
  {
    if !multi && |pds| > 0 then Stop(Run(r, First(pds[0])))
    else
      var out := if r.id.PyNone? then pds else pds + [r];
      var r1 := r.(id := PyInt(n));
      var e := IntValue(AfterColon(line));
      if e.Err? then Stop(Run(r1, Failed(e.error))) else Go(r1.(enclosure := e.value), out)
  }

  /** The rest of the loop body, from the state s0 and list out0 the
      boundary branch left: the chain, the append once the id is set, and
      the break after a terminator line (which ends the run with the list
      built so far). */
  function Finish(s0: IrPdRecord, line: string, out0: seq<IrPdRecord>): (st: Step<IrPdRecord>)
    ensures st.Go? ==> (!IsTerminator(line) && st.state.id == s0.id && st.state.adapter == s0.adapter
      && st.state.firmwareState == s0.firmwareState
      && st.out == (if s0.id.PyNone? then out0 else out0 + [st.state]))
    ensures st.Stop? ==> (st.run.parsed.Failed? || (IsTerminator(line) && st.run.parsed.Records?
      && st.run.state.id == s0.id && st.run.state.firmwareState == s0.firmwareState
      && st.run.parsed.records == (if s0.id.PyNone? then out0 else out0 + [st.run.state])))
  {
    var s := SetField(s0, line);
    if s.Err? then Stop(Run(s0, Failed(s.error)))
    else
      var out := if s.value.id.PyNone? then out0 else out0 + [s.value];
      if IsTerminator(line) then Stop(Run(s.value, Records(out))) else Go(s.value, out)
  }

  /** The body of the loop of `_handle` for one line, with n boundaries
      seen before: the boundary branch, then the rest. */
  function LineStep(r: IrPdRecord, line: string, multi: bool, pds: seq<IrPdRecord>, n: nat): (st: Step<IrPdRecord>)
    ensures st.Go? ==> !IsTerminator(line) && st.state.adapter == r.adapter
    ensures st.Go? ==> (!st.state.id.PyNone? <==> (IsBoundary(line) || !r.id.PyNone?))
  {
    var b := if IsBoundary(line) then Boundary(r, line, multi, pds, n) else Go(r, pds);
    if b.Stop? then b else Finish(b.state, line, b.out)
  }

  /** The counter `i` after a line. */
  function Next(line: string, n: nat): nat
  {
    if IsBoundary(line) then n + 1 else n
  }

  /** `_handle` as a fold over the lines, with n boundaries seen before;
      nothing is appended after the loop. */
  function Parse(r: IrPdRecord, lines: seq<string>, multi: bool, pds: seq<IrPdRecord>, n: nat): Run<IrPdRecord>
    decreases |lines|
  {
    if lines == [] then Run(r, Records(pds))
    else
      match LineStep(r, lines[0], multi, pds, n)
      case Stop(run) => run
      case Go(r1, pds1) => Parse(r1, lines[1..], multi, pds1, Next(lines[0], n))
  }

  /** One step of the fold, from line i on. */
  lemma ParseStep(r: IrPdRecord, lines: seq<string>, i: nat, multi: bool, pds: seq<IrPdRecord>, n: nat,
                  st: Step<IrPdRecord>)
    requires i < |lines| && st == LineStep(r, lines[i], multi, pds, n)
    ensures Parse(r, lines[i..], multi, pds, n)
      == if st.Stop? then st.run else Parse(st.state, lines[i + 1..], multi, st.out, Next(lines[i], n))
  {
    assert lines[i..][0] == lines[i] && lines[i..][1..] == lines[i + 1..];
  }

  /** The number of boundary lines. */
  function Boundaries(lines: seq<string>): nat
  {
    if lines == [] then 0 else (if IsBoundary(lines[0]) then 1 else 0) + Boundaries(lines[1..])
  }

  /** A terminator line is neither a boundary nor a branch of the chain: it
      appends the state once the id is set and ends the run. */
  lemma TerminatorEnds(r: IrPdRecord, line: string, multi: bool, pds: seq<IrPdRecord>, n: nat)
    requires IsTerminator(line)
    ensures LineStep(r, line, multi, pds, n)
      == Stop(Run(r, Records(if r.id.PyNone? then pds else pds + [r])))
  {
    PrefixClash(line, "Device is a Enclosure", "  Enclosure", 0);
    PrefixClash(line, "Device is a Enclosure", "  Slot", 0);
    forall k | 0 <= k < |Chain|
      ensures !StartsWith(line, Chain[k].prefix)
    {
      PrefixClash(line, "Device is a Enclosure", Chain[k].prefix, 0);
    }
  }

  /** Parsing stops at the first terminator line: the lines after it have
      no effect. */
  lemma StopsAtTerminator(r: IrPdRecord, lines: seq<string>, multi: bool, pds: seq<IrPdRecord>, n: nat, i: nat)
    requires i < |lines| && IsTerminator(lines[i])
    ensures Parse(r, lines, multi, pds, n) == Parse(r, lines[..i + 1], multi, pds, n)
  {
    forall r1: IrPdRecord, multi1: bool, pds1: seq<IrPdRecord>, n1: nat
      ensures LineStep(r1, lines[i], multi1, pds1, n1).Stop?
    {
      TerminatorEnds(r1, lines[i], multi1, pds1, n1);
    }
    StopsAt(r, lines, multi, pds, n, i);
  }

  /** A line that stops the parse from every state. */
  ghost predicate AlwaysStops(line: string)
  {
    forall r: IrPdRecord, multi: bool, pds: seq<IrPdRecord>, n: nat :: LineStep(r, line, multi, pds, n).Stop?
  }

  lemma {:induction false} StopsAt(r: IrPdRecord, lines: seq<string>, multi: bool, pds: seq<IrPdRecord>, n: nat, i: nat)
    requires i < |lines| && AlwaysStops(lines[i])
    ensures Parse(r, lines, multi, pds, n) == Parse(r, lines[..i + 1], multi, pds, n)
    decreases i
  {
    var head := lines[..i + 1];
    var st := LineStep(r, lines[0], multi, pds, n);
    SameFirstLine(r, lines, head, multi, pds, n, st);
    if i > 0 && st.Go? {
      var tail := lines[1..];
      assert tail[i - 1] == lines[i] && tail[..i] == head[1..];
      StopsAt(st.state, tail, multi, st.out, Next(lines[0], n), i - 1);
    }
  }

  /** Two line lists with the same first line take the same first step. */
  lemma SameFirstLine(r: IrPdRecord, lines: seq<string>, head: seq<string>, multi: bool, pds: seq<IrPdRecord>,
                      n: nat, st: Step<IrPdRecord>)
    requires lines != [] && head != [] && head[0] == lines[0] && st == LineStep(r, lines[0], multi, pds, n)
    ensures st.Stop? ==> Parse(r, lines, multi, pds, n) == st.run && Parse(r, head, multi, pds, n) == st.run
    ensures st.Go? ==> Parse(r, lines, multi, pds, n) == Parse(st.state, lines[1..], multi, st.out, Next(lines[0], n))
    ensures st.Go? ==> Parse(r, head, multi, pds, n) == Parse(st.state, head[1..], multi, st.out, Next(lines[0], n))
  {
  }

  /** The ids of a list of snapshots are integers below n that count up
      from disk 0 without a gap: the list starts at 0, and each id equals
      the one before it or is one more. */
  predicate Numbered(pds: seq<IrPdRecord>, n: nat)
  {
    && (forall k :: 0 <= k < |pds| ==> pds[k].id.PyInt? && 0 <= pds[k].id.i < n)
    && (forall j, k :: 0 <= j < k < |pds| ==> pds[j].id.i <= pds[k].id.i)
    && (pds != [] ==> pds[0].id == PyInt(0))
    && (forall k :: 0 < k < |pds| ==> pds[k].id.i <= pds[k - 1].id.i + 1)
  }

  /** The state after the boundary branch, m boundaries counted: the id
      is the last counter value, the list is empty only before the first
      append (at most one boundary seen), and its last id is at least the
      counter value before this one. */
  predicate Ready(r: IrPdRecord, pds: seq<IrPdRecord>, m: nat)
  {
    && r.id == (if m == 0 then PyNone else PyInt(m - 1))
    && (m == 0 ==> pds == [])
    && (pds == [] ==> m <= 1)
    && Numbered(pds, m)
    && (pds != [] ==> pds[|pds| - 1].id.i + 2 >= m)
  }

  /** The state of a run from a fresh object after n boundaries: as Ready,
      the list is empty exactly until the first boundary, and it ends with
      the current disk. */
  predicate Counter(r: IrPdRecord, pds: seq<IrPdRecord>, n: nat)
  {
    Ready(r, pds, n) && (n == 0 <==> pds == []) && (pds != [] ==> pds[|pds| - 1].id.i + 1 == n)
  }

  /** Appending a snapshot whose id is the last counter value, at most one
      above the last id listed (disk 0 on an empty list), keeps the list
      numbered. */
  lemma NumberedSnoc(pds: seq<IrPdRecord>, n: nat, p: IrPdRecord, m: nat)
    requires Numbered(pds, n) && 0 < m && n <= m && p.id == PyInt(m - 1)
    requires pds == [] ==> m == 1
    requires pds != [] ==> pds[|pds| - 1].id.i + 2 >= m
    ensures Numbered(pds + [p], m) && (pds + [p])[|pds|] == p
  {
    var q := pds + [p];
    assert forall k :: 0 <= k < |pds| ==> q[k] == pds[k];
  }

  lemma BoundaryCounter(r: IrPdRecord, line: string, multi: bool, pds: seq<IrPdRecord>, n: nat)
    requires Counter(r, pds, n)
    ensures var b := Boundary(r, line, multi, pds, n);
      && (b.Go? ==> Ready(b.state, b.out, n + 1))
      && (b.Stop? ==> !b.run.parsed.Records? && (b.run.parsed.First? ==> b.run.parsed.record.id == PyInt(0)))
  {
    var b := Boundary(r, line, multi, pds, n);
    if b.Go? {
      if r.id.PyNone? {
        assert b.out == [];
      } else {
        NumberedSnoc(pds, n, r, n);
        assert b.out == pds + [r];
      }
    }
  }

  lemma FinishCounter(s0: IrPdRecord, line: string, out0: seq<IrPdRecord>, m: nat)
    requires Ready(s0, out0, m)
    ensures var st := Finish(s0, line, out0);
      && (st.Go? ==> Counter(st.state, st.out, m))
      && (st.Stop? ==> !st.run.parsed.First? && (st.run.parsed.Records? ==> Numbered(st.run.parsed.records, m)))
  {
    var st := Finish(s0, line, out0);
    if !s0.id.PyNone? && (st.Go? || st.run.parsed.Records?) {
      var last := if st.Go? then st.state else st.run.state;
      NumberedSnoc(out0, m, last, m);
    }
  }

  lemma StepCounter(r: IrPdRecord, line: string, multi: bool, pds: seq<IrPdRecord>, n: nat)
    requires Counter(r, pds, n)
    ensures var st := LineStep(r, line, multi, pds, n);
      && (st.Go? ==> Counter(st.state, st.out, Next(line, n)))
      && (st.Stop? && st.run.parsed.Records? ==> Numbered(st.run.parsed.records, Next(line, n)))
      && (st.Stop? && st.run.parsed.First? ==> st.run.parsed.record.id == PyInt(0))
  {
    var b := if IsBoundary(line) then Boundary(r, line, multi, pds, n) else Go(r, pds);
    if IsBoundary(line) {
      BoundaryCounter(r, line, multi, pds, n);
    }
    if b.Go? {
      FinishCounter(b.state, line, b.out, Next(line, n));
    }
  }

  /** The ids are the counter: from a fresh object, every snapshot of a
      successful run has an integer id below the number of boundary lines,
      the ids count up 0, 1, 2, ... along the list without a gap (each the
      same as the one before or one more), and a single-mode run returns
      disk 0 — the first disk listed, whichever disk the object stood for. */
  lemma {:induction false} IdsFromCounter(r: IrPdRecord, lines: seq<string>, multi: bool, pds: seq<IrPdRecord>, n: nat)
    requires Counter(r, pds, n)
    ensures var run := Parse(r, lines, multi, pds, n);
      && (run.parsed.Records? ==> Numbered(run.parsed.records, n + Boundaries(lines)))
      && (run.parsed.First? ==> run.parsed.record.id == PyInt(0))
    decreases |lines|
  {
    if lines != [] {
      var st := LineStep(r, lines[0], multi, pds, n);
      ParseStep(r, lines, 0, multi, pds, n, st);
      assert lines[0..] == lines;
      StepCounter(r, lines[0], multi, pds, n);
      if st.Go? {
        IdsFromCounter(st.state, lines[1..], multi, st.out, Next(lines[0], n));
      }
    }
  }

  /** No line of the list is a terminator. */
  predicate NoTerminator(lines: seq<string>)
  {
    lines != [] ==> !IsTerminator(lines[0]) && NoTerminator(lines[1..])
  }

  /** The flagged every-line defect: once the id is set, a multi-mode run
      over lines without a terminator that succeeds appends one snapshot per
      line read plus one more per boundary line. */
  lemma {:induction false} EveryLineOnceIdSet(r: IrPdRecord, lines: seq<string>, pds: seq<IrPdRecord>, n: nat)
    requires !r.id.PyNone? && NoTerminator(lines)
    ensures Counted(Parse(r, lines, true, pds, n), pds, |lines| + Boundaries(lines))
    decreases |lines|
  {
    if lines != [] {
      var st := LineStep(r, lines[0], true, pds, n);
      SameFirstLine(r, lines, lines, true, pds, n, st);
      StepGrowth(r, lines[0], pds, n);
      if st.Go? {
        EveryLineOnceIdSet(st.state, lines[1..], st.out, Next(lines[0], n));
        CountedCons(Parse(st.state, lines[1..], true, st.out, Next(lines[0], n)), pds, st.out[|pds|..],
                    |lines| - 1 + Boundaries(lines[1..]));
        assert pds + st.out[|pds|..] == st.out;
      }
    }
  }

  /** With the id set, a multi-mode line other than a terminator either
      fails or appends one snapshot, two on a boundary line. */
  lemma StepGrowth(r: IrPdRecord, line: string, pds: seq<IrPdRecord>, n: nat)
    requires !r.id.PyNone? && !IsTerminator(line)
    ensures var st := LineStep(r, line, true, pds, n);
      && (st.Stop? ==> st.run.parsed.Failed?)
      && (st.Go? ==> |st.out| == |pds| + (if IsBoundary(line) then 2 else 1) && pds <= st.out)
  {
  }

  /** The firmware state is the default 'Online'. */
  predicate Online(p: IrPdRecord)
  {
    p.firmwareState == PyStr("Online")
  }

  predicate AllOnline(pds: seq<IrPdRecord>)
  {
    forall k :: 0 <= k < |pds| ==> Online(pds[k])
  }

  lemma FinishKeepsOnline(s0: IrPdRecord, line: string, out0: seq<IrPdRecord>)
    requires Online(s0) && AllOnline(out0)
    ensures var st := Finish(s0, line, out0);
      && (st.Go? ==> Online(st.state) && AllOnline(st.out))
      && (st.Stop? ==> !st.run.parsed.First? && (st.run.parsed.Records? ==> AllOnline(st.run.parsed.records)))
  {
    var st := Finish(s0, line, out0);
    var last := if st.Go? then st.state else st.run.state;
    var out := if st.Go? then st.out else if st.run.parsed.Records? then st.run.parsed.records else [];
    if st.Go? || st.run.parsed.Records? {
      assert out == out0 || out == out0 + [last];
      OnlineSnoc(out0, last);
    }
  }

  lemma OnlineSnoc(pds: seq<IrPdRecord>, p: IrPdRecord)
    requires AllOnline(pds) && Online(p)
    ensures AllOnline(pds + [p])
  {
  }

  lemma StepKeepsOnline(r: IrPdRecord, line: string, multi: bool, pds: seq<IrPdRecord>, n: nat)
    requires Online(r) && AllOnline(pds)
    ensures var st := LineStep(r, line, multi, pds, n);
      && (st.Go? ==> Online(st.state) && AllOnline(st.out))
      && (st.Stop? && st.run.parsed.Records? ==> AllOnline(st.run.parsed.records))
      && (st.Stop? && st.run.parsed.First? ==> Online(st.run.parsed.record))
  {
    if IsBoundary(line) {
      var b := Boundary(r, line, multi, pds, n);
      if b.Go? {
        if !r.id.PyNone? {
          OnlineSnoc(pds, r);
        }
        FinishKeepsOnline(b.state, line, b.out);
      }
    } else {
      FinishKeepsOnline(r, line, pds);
    }
  }

  /** The flagged firmware-state defect: every snapshot of a run from an
      object in the default state, and the object itself, stay 'Online'. */
  lemma {:induction false} AlwaysOnline(r: IrPdRecord, lines: seq<string>, multi: bool, pds: seq<IrPdRecord>, n: nat)
    requires Online(r) && AllOnline(pds)
    ensures var run := Parse(r, lines, multi, pds, n);
      && (run.parsed.Records? ==> AllOnline(run.parsed.records))
      && (run.parsed.First? ==> Online(run.parsed.record))
    decreases |lines|
  {
    if lines != [] {
      var st := LineStep(r, lines[0], multi, pds, n);
      ParseStep(r, lines, 0, multi, pds, n, st);
      assert lines[0..] == lines;
      StepKeepsOnline(r, lines[0], multi, pds, n);
      if st.Go? {
        AlwaysOnline(st.state, lines[1..], multi, st.out, Next(lines[0], n));
      }
    }
  }

  /** The '  Drive Type' branch always fails: its slice end `delim` is not
      defined. */
  lemma DriveTypeNameError(r: IrPdRecord, line: string)
    requires StartsWith(line, "  Drive Type")
    ensures SetField(r, line) == Err(NameError("delim"))
  {
    PrefixClash(line, "  Drive Type", "  Slot", 2);
    forall k | 0 <= k < 10
      ensures !StartsWith(line, Chain[k].prefix)
    {
      PrefixClash(line, "  Drive Type", Chain[k].prefix, 2);
    }
    LookupAt(line, Chain, 10);
  }

  /** '  Serial No' and '  Unit Serial No' are distinct branches: the
      first stores an integer in `serial_no`, and never touches
      `unit_serial_no`. */
  lemma SerialNoBranch(r: IrPdRecord, line: string)
    requires StartsWith(line, "  Serial No")
    ensures var v := IntValue(AfterColon(line));
      && (SetField(r, line).Ok? <==> v.Ok?)
      && (v.Ok? ==> SetField(r, line) == Ok(r.(attrs := r.attrs["serial_no" := v.value])))
  {
    PrefixClash(line, "  Serial No", "  Slot", 3);
    SerialNoLookup(line);
    var v := IntValue(AfterColon(line));
    assert Convert(Int, line) == v;
    assert Assign(r.attrs, line, Chain) == if v.Err? then Err(v.error) else Ok(r.attrs["serial_no" := v.value]);
  }

  lemma SerialNoLookup(line: string)
    requires StartsWith(line, "  Serial No")
    ensures Lookup(line, Chain) == Some(Field("  Serial No", "serial_no", Int))
  {
    PrefixClash(line, "  Serial No", "  PI Supported", 2);
    PrefixClash(line, "  Serial No", "  SAS Address", 3);
    PrefixClash(line, "  Serial No", "  Size", 3);
    PrefixClash(line, "  Serial No", "  Manufacturer", 2);
    PrefixClash(line, "  Serial No", "  Model Number", 2);
    PrefixClash(line, "  Serial No", "  Firmware Revision", 2);
    LookupAt(line, Chain, 6);
  }

  /** The second stores the text in `unit_serial_no`, and never touches
      `serial_no`. */
  lemma UnitSerialNoBranch(r: IrPdRecord, line: string)
    requires StartsWith(line, "  Unit Serial No")
    ensures SetField(r, line) == Ok(r.(attrs := r.attrs["unit_serial_no" := PyStr(AfterColon(line))]))
  {
    PrefixClash(line, "  Unit Serial No", "  Slot", 2);
    forall k | 0 <= k < 7
      ensures !StartsWith(line, Chain[k].prefix)
    {
      PrefixClash(line, "  Unit Serial No", Chain[k].prefix, 2);
    }
    LookupAt(line, Chain, 7);
  }

  lemma SizeBranch(line: string)
    requires StartsWith(line, "  Size")
    ensures Lookup(line, Chain) == Some(Field("  Size", "size", IntTo("/", 0))) && !IsSlotLine(line)
  {
    PrefixClash(line, "  Size", "  Slot", 3);
    PrefixClash(line, "  Size", "  PI Supported", 2);
    PrefixClash(line, "  Size", "  SAS Address", 3);
    LookupAt(line, Chain, 2);
  }

  /** The text the size branch passes to `int()`: for `head:v/tail`, where
      neither the colon nor the '/' occurs earlier, it is v stripped,
      whatever follows the '/'. */
  lemma SizeCut(head: string, v: string, tail: string)
    requires !Contains(head, ":") && !Contains(head + ":" + v, "/")
    ensures Convert(IntTo("/", 0), head + ":" + v + "/" + tail) == IntValue(Strip(v))
  {
    var line := head + ":" + v + "/" + tail;
    ColonToChar(head, v, '/', tail);
    IntCut(line, "/", 0, Strip(v));
  }

  /** The size is the integer between the colon and the first '/'. */
  lemma SizeField(r: IrPdRecord, head: string, v: string, tail: string)
    requires StartsWith(head, "  Size") && !Contains(head, ":") && !Contains(head + ":" + v, "/")
    ensures var s := SetField(r, head + ":" + v + "/" + tail);
      && (s.Ok? <==> ParseInt(Strip(v)).Some?)
      && (s.Ok? ==> s == Ok(r.(attrs := r.attrs["size" := PyInt(ParseInt(Strip(v)).value)])))
  {
    var line := head + ":" + v + "/" + tail;
    StartsWithExtend(head, "  Size", ":");
    StartsWithExtend(head + ":", "  Size", v);
    StartsWithExtend(head + ":" + v, "  Size", "/");
    StartsWithExtend(head + ":" + v + "/", "  Size", tail);
    SizeBranch(line);
    SizeCut(head, v, tail);
  }

  /** A size line whose first '/' comes no later than its first colon
      (a label such as 'Size (in MB)/(in sectors)'): the slice between the
      colon and the '/' is empty, and `int('')` raises ValueError. */
  lemma SizeSlashFirst(r: IrPdRecord, line: string)
    requires StartsWith(line, "  Size") && 0 <= Find(line, "/") <= Find(line, ":")
    ensures SetField(r, line) == Err(ValueError(""))
  {
    SizeBranch(line);
    assert Slice(line, Find(line, ":") + 1, Find(line, "/") - 0) == [];
    assert CutText(line, "/", 0) == "";
  }

  function ListCommand(r: IrPdRecord): string
  {
    r.adapter.Show() + " LIST"
  }

  /** `__flush__`: without an adapter nothing is issued; otherwise the
      adapter's listing is parsed in single mode into the object. */
  function FlushSpec(tool: Tool, r: IrPdRecord): (o: Outcome<IrPdRecord>)
    ensures r.adapter.PyNone? <==> o.issued == []
    ensures o.issued == [] ==> o == Outcome(Some(InvalidParameterValue("")), [], r)
    ensures o.issued != [] ==> o.issued == [ListCommand(r)]
  {
    if r.adapter.PyNone? then Outcome(Some(InvalidParameterValue("")), [], r)
    else
      var cmd := ListCommand(r);
      var out := tool(cmd);
      if out.Err? then Outcome(Some(out.error), [cmd], r)
      else
        var run := Parse(r, out.value, false, [], 0);
        Outcome(if run.parsed.Failed? then Some(run.parsed.error) else None, [cmd], run.state)
  }

  /** A `PhysicalDisk` object. */
  class PhysicalDisk {
    var adapter: PyVal
    var enclosure: PyVal
    var slot: PyVal
    var id: PyVal
    var firmwareState: PyVal
    var attrs: Attrs

    /** `self.copy()`. */
    function Snapshot(): IrPdRecord
      reads this
    {
      IrPdRecord(adapter, enclosure, slot, id, firmwareState, attrs)
    }

    constructor (enclosure: PyVal, slot: PyVal, adapter: PyVal)
      ensures Snapshot() == Initial(enclosure, slot, adapter)
    {
      this.adapter := adapter;
      this.enclosure := enclosure;
      this.slot := slot;
      id := PyNone;
      firmwareState := PyStr("Online");
      attrs := InitialAttrs;
    }

    /** The boundary branch, with n boundaries seen before. */
    method ReadBoundary(line: string, multi: bool, pds: seq<IrPdRecord>, n: nat) returns (st: Step<IrPdRecord>)
      modifies this
      ensures st == Boundary(old(Snapshot()), line, multi, pds, n)
      ensures st.Go? ==> Snapshot() == st.state
      ensures st.Stop? ==> Snapshot() == st.run.state
    {
      if !multi && |pds| > 0 {
        return Stop(Run(Snapshot(), First(pds[0])));
      }
      ghost var r := Snapshot();
      var out := if id.PyNone? then pds else pds + [Snapshot()];
      id := PyInt(n);
      assert Snapshot() == r.(id := PyInt(n));
      var e := IntValue(AfterColon(line));
      if e.Err? {
        return Stop(Run(Snapshot(), Failed(e.error)));
      }
      enclosure := e.value;
      assert Snapshot() == r.(id := PyInt(n)).(enclosure := e.value);
      st := Go(Snapshot(), out);
    }

    /** The elif chain for one line. */
    method ApplyField(line: string) returns (err: Option<Error>)
      modifies this
      ensures var s := SetField(old(Snapshot()), line);
        && (s.Ok? ==> err.None? && Snapshot() == s.value)
        && (s.Err? ==> err == Some(s.error) && Snapshot() == old(Snapshot()))
    {
      err := None;
      if IsSlotLine(line) {
        var v := IntValue(AfterColon(line));
        if v.Err? {
          return Some(v.error);
        }
        slot := v.value;
        return;
      }
      var f := Lookup(line, Chain);
      if f.Some? {
        var v := Convert(f.value.conv, line);
        if v.Err? {
          return Some(v.error);
        }
        attrs := attrs[f.value.attr := v.value];
      }
    }

    /** One pass of the loop body of `_handle`, with n boundaries seen
        before. */
    method HandleLine(line: string, multi: bool, pds: seq<IrPdRecord>, n: nat) returns (st: Step<IrPdRecord>)
      modifies this
      ensures st == LineStep(old(Snapshot()), line, multi, pds, n)
      ensures st.Go? ==> Snapshot() == st.state
      ensures st.Stop? ==> Snapshot() == st.run.state
    {
      var b := Go(Snapshot(), pds);
      if IsBoundary(line) {
        b := ReadBoundary(line, multi, pds, n);
        if b.Stop? {
          return b;
        }
      }
      var err := ApplyField(line);
      if err.Some? {
        return Stop(Run(Snapshot(), Failed(err.value)));
      }
      var out := if id.PyNone? then b.out else b.out + [Snapshot()];
      if IsTerminator(line) {
        return Stop(Run(Snapshot(), Records(out)));
      }
      st := Go(Snapshot(), out);
    }

    /** `_handle`: the object is the accumulator and `n` the counter `i`;
        the loop ends at the end of the lines or after a terminator. */
    method Handle(lines: seq<string>, multi: bool) returns (out: Parsed<IrPdRecord>)
      modifies this
      ensures Run(Snapshot(), out) == Parse(old(Snapshot()), lines, multi, [], 0)
    {
      var pds: seq<IrPdRecord> := [];
      var n: nat := 0;
      var i := 0;
      while i < |lines|
        invariant 0 <= i <= |lines|
        invariant Parse(Snapshot(), lines[i..], multi, pds, n) == Parse(old(Snapshot()), lines, multi, [], 0)
      {
        ghost var r := Snapshot();
        var st := HandleLine(lines[i], multi, pds, n);
        ParseStep(r, lines, i, multi, pds, n, st);
        if st.Stop? {
          return st.run.parsed;
        }
        pds := st.out;
        n := Next(lines[i], n);
        i := i + 1;
      }
      out := Records(pds);
    }

    /** `__flush__`. */
    method Flush(tool: Tool) returns (err: Option<Error>, issued: seq<string>)
      modifies this
      ensures Outcome(err, issued, Snapshot()) == FlushSpec(tool, old(Snapshot()))
    {
      if adapter.PyNone? {
        return Some(InvalidParameterValue("")), [];
      }
      var cmd := ListCommand(Snapshot());
      issued := [cmd];
      var ret := tool(cmd);
      if ret.Err? {
        return Some(ret.error), issued;
      }
      var parsed := Handle(ret.value, false);
      err := if parsed.Failed? then Some(parsed.error) else None;
    }

    /** `get_physical_disks`: the adapter's listing in multi mode; there is
        no guard, so without an adapter the command names 'None'. */
    method GetPhysicalDisks(tool: Tool) returns (result: Parsed<IrPdRecord>, cmd: string)
      modifies this
      ensures cmd == ListCommand(old(Snapshot()))
      ensures tool(cmd).Err? ==> result == Failed(tool(cmd).error) && Snapshot() == old(Snapshot())
      ensures tool(cmd).Ok? ==> Run(Snapshot(), result) == Parse(old(Snapshot()), tool(cmd).value, true, [], 0)
    {
      cmd := ListCommand(Snapshot());
      var ret := tool(cmd);
      if ret.Err? {
        return Failed(ret.error), cmd;
      }
      result := Handle(ret.value, true);
    }
  }
}
