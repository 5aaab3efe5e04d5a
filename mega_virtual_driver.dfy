/** The MegaCLI virtual drive (logical drive): the parser of `-LdInfo`
    output, the create / destroy / flush commands and the minimum-disk check
    of a RAID configuration. */
module MegaVirtualDriver {
  import opened Lists
  import opened Text
  import opened Common
  import opened Fields

  /** The attributes of a `VirtualDriver` object: the adapter and the id,
      which the commands read, and the descriptive attributes by name. */
  datatype VdRecord = VdRecord(adapter: PyVal, id: PyVal, attrs: Attrs)

  /** The descriptive attributes `__init__` sets: empty strings, and 0 for
      the two counts. */
  const InitialAttrs: Attrs := map[
    "name" := PyStr(""), "raid_level" := PyStr(""), "size" := PyStr(""), "state" := PyStr(""),
    "stripe_size" := PyStr(""), "number_of_drives" := PyInt(0), "span_depth" := PyInt(0),
    "default_cache_policy" := PyStr(""), "current_cache_policy" := PyStr(""),
    "access_policy" := PyStr(""), "disk_cache_policy" := PyStr(""), "encryption" := PyStr("")]

  /** A new object: the given adapter and id, the attributes of `__init__`. */
  function Initial(adapter: PyVal, id: PyVal): VdRecord
  {
    VdRecord(adapter, id, InitialAttrs)
  }

  /** A record starts at a line beginning 'Virtual Drive'. */
  predicate IsBoundary(line: string)
  {
    StartsWith(line, "Virtual Drive")
  }

  /** The id text of a boundary line: between the first ':' and the first '('. */
  function IdText(line: string): string
  {
    ColonTo(line, Find(line, "("))
  }

  /** The boundary's id assignment `self.id = int(...)`. */
  function SetId(r: VdRecord, line: string): (s: Result<VdRecord>)
    ensures s.Ok? <==> ParseInt(IdText(line)).Some?
    ensures s.Ok? ==> s.value == r.(id := PyInt(ParseInt(IdText(line)).value))
    ensures s.Err? ==> s.error == ValueError(IdText(line))
  {
    var v := ParseInt(IdText(line));
    if v.None? then Err(ValueError(IdText(line))) else Ok(r.(id := PyInt(v.value)))
  }

  /** The elif chain of `_handle`, in chain order: 'Size' is cut at ' GB',
      'Strip Size' at ' KB', the drive count and the span depth are integers. */
  const Chain: seq<Field> := [
    Field("Name", "name", Str), Field("RAID Level", "raid_level", Str),
    Field("Size", "size", StrTo(" GB", 0)), Field("State", "state", Str),
    Field("Strip Size", "stripe_size", StrTo(" KB", 0)), Field("Number Of Drives", "number_of_drives", Int),
    Field("Span Depth", "span_depth", Int), Field("Default Cache Policy", "default_cache_policy", Str),
    Field("Current Cache Policy", "current_cache_policy", Str),
    Field("Current Access Policy", "access_policy", Str), Field("Disk Cache Policy", "disk_cache_policy", Str),
    Field("Encryption", "encryption", Str)]

  /** The chain applied to a line (boundary lines included): it never touches
      the adapter or the id. */
  function SetField(r: VdRecord, line: string): (s: Result<VdRecord>)
    ensures Lookup(line, Chain).None? ==> s == Ok(r)
    ensures s.Ok? ==> s.value.id == r.id && s.value.adapter == r.adapter
  {
    var a := Assign(r.attrs, line, Chain);
    if a.Err? then Err(a.error) else Ok(r.(attrs := a.value))
  }

  /** The body of the loop of `_handle` for one line. A boundary returns the
      first snapshot in single mode once one exists; otherwise it appends the
      current state when its id is set and reads the new id. Then the field
      chain runs on the line. */
  function LineStep(r: VdRecord, line: string, multi: bool, vds: seq<VdRecord>): (st: Step<VdRecord>)
    ensures (IsBoundary(line) && !multi && |vds| > 0) ==> st == Stop(Run(r, First(vds[0])))
    ensures st.Stop? && !(IsBoundary(line) && !multi && |vds| > 0) ==> st.run.parsed.Failed?
    ensures st.Go? ==> st.out == (if IsBoundary(line) && !r.id.PyNone? then vds + [r] else vds)
    ensures st.Go? && IsBoundary(line) ==>
      ParseInt(IdText(line)).Some? && st.state.id == PyInt(ParseInt(IdText(line)).value)
    ensures st.Go? && !IsBoundary(line) ==> st.state.id == r.id
    ensures st.Go? ==> st.state.adapter == r.adapter
  {
    if IsBoundary(line) && !multi && |vds| > 0 then Stop(Run(r, First(vds[0])))
    else
      var vds1 := if IsBoundary(line) && !r.id.PyNone? then vds + [r] else vds;
      var r1 := if IsBoundary(line) then SetId(r, line) else Ok(r);
      if r1.Err? then Stop(Run(r, Failed(r1.error)))
      else
        var r2 := SetField(r1.value, line);
        if r2.Err? then Stop(Run(r1.value, Failed(r2.error)))
        else Go(r2.value, vds1)
  }

  /** `_handle` as a fold over the lines: r is the object's state, vds the
      snapshots appended so far; at the end the state is appended when its id
      is set. */
  function Parse(r: VdRecord, lines: seq<string>, multi: bool, vds: seq<VdRecord>): Run<VdRecord>
    decreases |lines|
  {
    if lines == [] then Run(r, Records(if r.id.PyNone? then vds else vds + [r]))
    else
      match LineStep(r, lines[0], multi, vds)
      case Stop(run) => run
      case Go(r1, vds1) => Parse(r1, lines[1..], multi, vds1)
  }

  /** One step of the fold. */
  lemma ParseUnfold(r: VdRecord, lines: seq<string>, multi: bool, vds: seq<VdRecord>)
    requires lines != []
    ensures Parse(r, lines, multi, vds) == match LineStep(r, lines[0], multi, vds)
      case Stop(run) => run
      case Go(r1, vds1) => Parse(r1, lines[1..], multi, vds1)
  {
  }

  /** The number of boundary lines. */
  function Boundaries(lines: seq<string>): nat
  {
    if lines == [] then 0 else (if IsBoundary(lines[0]) then 1 else 0) + Boundaries(lines[1..])
  }

  /** The ids the boundary lines carry, in order (None where the id text is
      not an integer, which makes the parse fail). */
  function BoundaryIds(lines: seq<string>): (ids: seq<PyVal>)
    ensures |ids| == Boundaries(lines)
  {
    if lines == [] then []
    else
      var v := ParseInt(IdText(lines[0]));
      (if IsBoundary(lines[0]) then [if v.Some? then PyInt(v.value) else PyNone] else [])
      + BoundaryIds(lines[1..])
  }

  function Ids(vds: seq<VdRecord>): (ids: seq<PyVal>)
    ensures |ids| == |vds| && forall k :: 0 <= k < |vds| ==> ids[k] == vds[k].id
  {
    if vds == [] then [] else [vds[0].id] + Ids(vds[1..])
  }

  lemma IdsAppend(a: seq<VdRecord>, b: seq<VdRecord>)
    ensures Ids(a + b) == Ids(a) + Ids(b)
  {
  }

  /** The id a state contributes when it is appended: its own, once set. */
  function Own(r: VdRecord): seq<PyVal>
  {
    if r.id.PyNone? then [] else [r.id]
  }

  /** One multi-mode line that does not stop the parse moves its boundary id,
      if any, from the lines still to come into the snapshots and the state. */
  lemma StepIds(r: VdRecord, lines: seq<string>, vds: seq<VdRecord>, st: Step<VdRecord>)
    requires lines != [] && st.Go?
    requires st.out == (if IsBoundary(lines[0]) && !r.id.PyNone? then vds + [r] else vds)
    requires IsBoundary(lines[0]) ==>
      ParseInt(IdText(lines[0])).Some? && st.state.id == PyInt(ParseInt(IdText(lines[0])).value)
    requires !IsBoundary(lines[0]) ==> st.state.id == r.id
    ensures Ids(st.out) + Own(st.state) + BoundaryIds(lines[1..]) == Ids(vds) + Own(r) + BoundaryIds(lines)
  {
    if IsBoundary(lines[0]) {
      BoundaryStepIds(r, lines, vds, st.out, st.state.id, ParseInt(IdText(lines[0])).value);
      assert Own(st.state) == [st.state.id];
    } else {
      assert BoundaryIds(lines) == BoundaryIds(lines[1..]);
    }
  }

  lemma BoundaryStepIds(r: VdRecord, lines: seq<string>, vds: seq<VdRecord>, out: seq<VdRecord>, id: PyVal, v: int)
    requires lines != [] && IsBoundary(lines[0]) && ParseInt(IdText(lines[0])) == Some(v) && id == PyInt(v)
    requires out == (if !r.id.PyNone? then vds + [r] else vds)
    ensures Ids(out) + [id] + BoundaryIds(lines[1..]) == Ids(vds) + Own(r) + BoundaryIds(lines)
  {
    BoundaryIdsCons(lines, v);
    OwnIds(r, vds, out);
    Regroup(Ids(vds), Own(r), [id], BoundaryIds(lines[1..]));
  }

  lemma BoundaryIdsCons(lines: seq<string>, v: int)
    requires lines != [] && IsBoundary(lines[0]) && ParseInt(IdText(lines[0])) == Some(v)
    ensures BoundaryIds(lines) == [PyInt(v)] + BoundaryIds(lines[1..])
  {
  }

  lemma OwnIds(r: VdRecord, vds: seq<VdRecord>, out: seq<VdRecord>)
    requires out == (if !r.id.PyNone? then vds + [r] else vds)
    ensures Ids(out) == Ids(vds) + Own(r)
  {
    IdsAppend(vds, [r]);
    if r.id.PyNone? {
      assert Ids(vds) + Own(r) == Ids(vds);
    }
  }

  /** In multi mode every boundary contributes exactly one snapshot, in
      order, carrying the boundary's id; a state whose id is set contributes
      one more before them. */
  lemma {:induction false} MultiIds(r: VdRecord, lines: seq<string>, vds: seq<VdRecord>)
    ensures var out := Parse(r, lines, true, vds).parsed;
      out.Records? ==> Ids(out.records) == Ids(vds) + Own(r) + BoundaryIds(lines)
    decreases |lines|
  {
    if lines == [] {
      IdsAppend(vds, [r]);
      assert Ids(vds) + Own(r) + BoundaryIds(lines) == Ids(vds) + Own(r);
    } else {
      var st := LineStep(r, lines[0], true, vds);
      if st.Go? {
        MultiIds(st.state, lines[1..], st.out);
        StepIds(r, lines, vds, st);
      }
    }
  }

  lemma Regroup<T>(a: seq<T>, b: seq<T>, c: seq<T>, d: seq<T>)
    ensures a + b + c + d == a + b + (c + d)
  {
  }

  /** From a state without an id, N boundary lines give exactly N snapshots
      whose ids are those of the boundary lines, in source order; no boundary
      gives the empty list. */
  lemma MultiCount(r: VdRecord, lines: seq<string>)
    requires r.id.PyNone?
    ensures var out := Parse(r, lines, true, []).parsed;
      out.Records? ==> |out.records| == Boundaries(lines) && Ids(out.records) == BoundaryIds(lines)
  {
    MultiIds(r, lines, []);
  }

  /** How many boundaries single mode needs before it returns early: one once
      a snapshot exists, two when the id is set (the first boundary appends
      the current state), three from a state without an id. */
  function Need(r: VdRecord, vds: seq<VdRecord>): nat
  {
    if |vds| > 0 then 1 else if !r.id.PyNone? then 2 else 3
  }

  /** Multi mode keeps the snapshots it starts with at the front. */
  lemma {:induction false} MultiKeepsPrefix(r: VdRecord, lines: seq<string>, vds: seq<VdRecord>)
    ensures var out := Parse(r, lines, true, vds).parsed;
      out.Records? ==> vds <= out.records
    decreases |lines|
  {
    if lines != [] {
      var st := LineStep(r, lines[0], true, vds);
      if st.Go? {
        MultiKeepsPrefix(st.state, lines[1..], st.out);
      }
    }
  }

  /** Single mode agrees with multi mode: with fewer boundaries than it
      needs it runs to the end exactly like multi mode; with enough, it
      returns the first snapshot multi mode would have listed. */
  lemma {:induction false} SingleAgreesWithMulti(r: VdRecord, lines: seq<string>, vds: seq<VdRecord>)
    ensures Boundaries(lines) < Need(r, vds) ==> Parse(r, lines, false, vds) == Parse(r, lines, true, vds)
    ensures var multi := Parse(r, lines, true, vds).parsed;
      Boundaries(lines) >= Need(r, vds) && multi.Records? ==>
        |multi.records| > 0 && Parse(r, lines, false, vds).parsed == First(multi.records[0])
    decreases |lines|
  {
    if lines != [] {
      var line := lines[0];
      if IsBoundary(line) && |vds| > 0 {
        MultiKeepsPrefix(r, lines, vds);
      } else {
        var st := LineStep(r, line, true, vds);
        assert LineStep(r, line, false, vds) == st;
        if st.Go? {
          assert Need(st.state, st.out) == Need(r, vds) - (if IsBoundary(line) then 1 else 0);
          SingleAgreesWithMulti(st.state, lines[1..], st.out);
        }
      }
    }
  }

  /** A line that starts with 'Size' is taken by the 'Size' branch. */
  lemma SizeBranch(line: string)
    requires StartsWith(line, "Size")
    ensures Lookup(line, Chain) == Some(Field("Size", "size", StrTo(" GB", 0)))
  {
    PrefixClash(line, "Size", "Name", 0);
    PrefixClash(line, "Size", "RAID Level", 0);
    LookupAt(line, Chain, 2);
  }

  /** A line that starts with 'Strip Size' is taken by the 'Strip Size'
      branch, not by the earlier 'Size' or 'State' ones. */
  lemma StripSizeBranch(line: string)
    requires StartsWith(line, "Strip Size")
    ensures Lookup(line, Chain) == Some(Field("Strip Size", "stripe_size", StrTo(" KB", 0)))
  {
    PrefixClash(line, "Strip Size", "Name", 0);
    PrefixClash(line, "Strip Size", "RAID Level", 0);
    PrefixClash(line, "Strip Size", "Size", 1);
    PrefixClash(line, "Strip Size", "State", 2);
    LookupAt(line, Chain, 4);
  }

  /** A line `<head>:<v> GB<tail>` whose head starts with 'Size' sets the
      size to v stripped and changes nothing else. */
  lemma SizeField(r: VdRecord, head: string, v: string, tail: string)
    requires StartsWith(head, "Size") && !Contains(head, ":")
    requires !Contains(head + ":" + v + " G", " GB")
    ensures SetField(r, head + ":" + v + " GB" + tail) == Ok(r.(attrs := r.attrs["size" := PyStr(Strip(v))]))
  {
    var line := head + ":" + v + " GB" + tail;
    StartsWithExtend(head, "Size", ":");
    StartsWithExtend(head + ":", "Size", v);
    StartsWithExtend(head + ":" + v, "Size", " GB");
    StartsWithExtend(head + ":" + v + " GB", "Size", tail);
    SizeBranch(line);
    assert " GB"[..2] == " G";
    CutAtUnit(head, v, " GB", tail);
  }

  /** A line `<head>:<v> KB<tail>` whose head starts with 'Strip Size' sets
      the stripe size to v stripped. */
  lemma StripSizeField(r: VdRecord, head: string, v: string, tail: string)
    requires StartsWith(head, "Strip Size") && !Contains(head, ":")
    requires !Contains(head + ":" + v + " K", " KB")
    ensures SetField(r, head + ":" + v + " KB" + tail) == Ok(r.(attrs := r.attrs["stripe_size" := PyStr(Strip(v))]))
  {
    var line := head + ":" + v + " KB" + tail;
    StartsWithExtend(head, "Strip Size", ":");
    StartsWithExtend(head + ":", "Strip Size", v);
    StartsWithExtend(head + ":" + v, "Strip Size", " KB");
    StartsWithExtend(head + ":" + v + " KB", "Strip Size", tail);
    StripSizeBranch(line);
    assert " KB"[..2] == " K";
    CutAtUnit(head, v, " KB", tail);
  }

  /** The names of `megautils.raid.mega` that `create` and the schema check
      use; that module does not define them, so they are a parameter. */
  datatype CliConstants = CliConstants(
    raid0: string, raid1: string, raid5: string, raid6: string, raid10: string, raid50: string,
    inputMapping: map<string, string>, minDisks: map<string, int>)

  /** `mega.RAID_LEVEL_INPUT_MAPPING.get(raid_level)` printed with '%s'. */
  function MappedLevel(c: CliConstants, level: string): string
  {
    if level in c.inputMapping then c.inputMapping[level] else "None"
  }

  /** Disks per span group for the span levels: 2 for RAID 10, 3 for RAID
      50 and 4 for every other level that is not a plain one. */
  function SpanWidth(c: CliConstants, level: string): (k: nat)
    ensures 2 <= k <= 4
  {
    if level == c.raid10 then 2 else if level == c.raid50 then 3 else 4
  }

  predicate IsPlainLevel(c: CliConstants, level: string)
  {
    level == c.raid0 || level == c.raid1 || level == c.raid5 || level == c.raid6
  }

  /** The consecutive full groups of k disks, from the front. */
  function Groups(items: seq<string>, k: nat): (gs: seq<seq<string>>)
    requires k > 0
    ensures forall j :: 0 <= j < |gs| ==> |gs[j]| == k
    decreases |items|
  {
    if |items| < k then [] else [items[..k]] + Groups(items[k..], k)
  }

  /** The disks after the last full group. */
  function Leftover(items: seq<string>, k: nat): (rest: seq<string>)
    requires k > 0
    ensures |rest| < k
    decreases |items|
  {
    if |items| < k then items else Leftover(items[k..], k)
  }

  function Flatten(gs: seq<seq<string>>): seq<string>
  {
    if gs == [] then [] else gs[0] + Flatten(gs[1..])
  }

  lemma {:induction false} FlattenAppend(gs: seq<seq<string>>, g: seq<string>)
    ensures Flatten(gs + [g]) == Flatten(gs) + g
  {
    if gs != [] {
      assert (gs + [g])[1..] == gs[1..] + [g];
      FlattenAppend(gs[1..], g);
    } else {
      assert [g][1..] == [];
    }
  }

  /** The groups followed by the leftover are the disks, in order. */
  lemma {:induction false} GroupsThenLeftover(items: seq<string>, k: nat)
    requires k > 0
    ensures Flatten(Groups(items, k)) + Leftover(items, k) == items
    decreases |items|
  {
    if |items| >= k {
      GroupsThenLeftover(items[k..], k);
      var gs := Groups(items, k);
      assert gs[1..] == Groups(items[k..], k);
      assert items[..k] + items[k..] == items;
    }
  }

  /** There are `len(disks) / k` groups (Python 2 integer division). */
  lemma {:induction false} GroupCount(items: seq<string>, k: nat)
    requires 2 <= k <= 4
    ensures |Groups(items, k)| == |items| / k
    decreases |items|
  {
    if |items| >= k {
      GroupCount(items[k..], k);
      assert |items[k..]| == |items| - k;
      if k == 2 {
        assert (|items| - 2) / 2 + 1 == |items| / 2;
      } else if k == 3 {
        assert (|items| - 3) / 3 + 1 == |items| / 3;
      } else {
        assert (|items| - 4) / 4 + 1 == |items| / 4;
      }
    }
  }

  /** `' -Array%s[%s,...]' % (i, ...)` for group i. */
  function ArrayArg(i: nat, g: seq<string>): string
  {
    " -Array" + FormatInt(i) + "[" + Join(g, ",") + "]"
  }

  /** The argument of each group, concatenated. */
  function ArrayArgs(gs: seq<seq<string>>): string
  {
    if gs == [] then ""
    else ArrayArgs(gs[..|gs| - 1]) + ArrayArg(|gs| - 1, gs[|gs| - 1])
  }

  /** Popping one full group from the front. */
  lemma GroupsStep(items: seq<string>, k: nat)
    requires k > 0 && |items| >= k
    ensures Groups(items, k) == [items[..k]] + Groups(items[k..], k)
    ensures Leftover(items, k) == Leftover(items[k..], k)
  {
  }

  /** Appending one group appends its ` -Array<i>[...]` argument. */
  lemma ArrayArgsSnoc(gs: seq<seq<string>>, g: seq<string>)
    ensures ArrayArgs(gs + [g]) == ArrayArgs(gs) + ArrayArg(|gs|, g)
  {
    var gs1 := gs + [g];
    assert gs1[..|gs1| - 1] == gs && gs1[|gs1| - 1] == g;
  }

  /** The command `create` issues and the disks left in the caller's list. */
  function CreateCommand(c: CliConstants, level: string, items: seq<string>, adapter: PyVal): (string, seq<string>)
  {
    if IsPlainLevel(c, level) then
      ("-CfgLdAdd -r" + MappedLevel(c, level) + " [" + Join(items, ",") + "] -a" + adapter.Show(), items)
    else
      var k := SpanWidth(c, level);
      ("-CfgSpanAdd -r" + MappedLevel(c, level) + " " + ArrayArgs(Groups(items, k)) + " Direct RA WB -a" + adapter.Show(),
       Leftover(items, k))
  }

  /** For the span levels `len(disks) / k` groups are popped from the front
      of the caller's list in order, and fewer than one group's worth of disks
      is left there. */
  lemma SpanLeftover(c: CliConstants, level: string, items: seq<string>, adapter: PyVal)
    requires !IsPlainLevel(c, level)
    ensures var k := SpanWidth(c, level);
      var rest := CreateCommand(c, level, items, adapter).1;
      |Groups(items, k)| == |items| / k && |rest| < k && Flatten(Groups(items, k)) + rest == items
  {
    var k := SpanWidth(c, level);
    GroupCount(items, k);
    GroupsThenLeftover(items, k);
  }

  /** The entries of a RAID configuration's logical disk that the
      minimum-disk check reads; an absent key is None. */
  datatype LogicalDisk = LogicalDisk(raidLevel: string, numberOfPhysicalDisks: Option<int>,
                                     physicalDisks: Option<seq<string>>)

  /** The number of disks a logical disk specifies: `number_of_physical_disks`
      when present, else the length of `physical_disks`, else None. */
  function DisksSpecified(ld: LogicalDisk): (n: Option<int>)
    ensures ld.numberOfPhysicalDisks.Some? ==> n == ld.numberOfPhysicalDisks
    ensures ld.numberOfPhysicalDisks.None? && ld.physicalDisks.Some? ==> n == Some(|ld.physicalDisks.value|)
    ensures n.None? <==> ld.numberOfPhysicalDisks.None? && ld.physicalDisks.None?
  {
    if ld.numberOfPhysicalDisks.Some? then ld.numberOfPhysicalDisks
    else if ld.physicalDisks.Some? then Some(|ld.physicalDisks.value|)
    else None
  }

  function TooFewMessage(level: string, min: int): string
  {
    "RAID level " + level + " requires at least " + FormatInt(min) + " disks."
  }

  /** The check for one logical disk: the level's minimum is looked up first
      (KeyError for an unknown level), and a specified count that is truthy
      and below it is refused. */
  function CheckMinDisks(c: CliConstants, ld: LogicalDisk): (e: Option<Error>)
    ensures ld.raidLevel !in c.minDisks ==> e == Some(KeyError(ld.raidLevel))
    ensures ld.raidLevel in c.minDisks ==>
      var n := DisksSpecified(ld);
      && (e.None? <==> n.None? || n.value == 0 || n.value >= c.minDisks[ld.raidLevel])
      && (e.Some? ==> e == Some(InvalidParameterValue(TooFewMessage(ld.raidLevel, c.minDisks[ld.raidLevel]))))
  {
    if ld.raidLevel !in c.minDisks then Some(KeyError(ld.raidLevel))
    else
      var min := c.minDisks[ld.raidLevel];
      var n := DisksSpecified(ld);
      if n.Some? && n.value != 0 && n.value < min then
        Some(InvalidParameterValue(TooFewMessage(ld.raidLevel, min)))
      else None
  }

  /** The loop over `raid_config['logical_disks']`: the first logical disk
      that fails its check decides the error. */
  function ValidateMinDisks(c: CliConstants, lds: seq<LogicalDisk>): (e: Option<Error>)
    ensures e.None? <==> forall k :: 0 <= k < |lds| ==> CheckMinDisks(c, lds[k]).None?
    ensures e.Some? ==> exists k :: (0 <= k < |lds| && e == CheckMinDisks(c, lds[k])
      && forall j :: 0 <= j < k ==> CheckMinDisks(c, lds[j]).None?)
  {
    if lds == [] then None
    else if CheckMinDisks(c, lds[0]).Some? then CheckMinDisks(c, lds[0])
    else
      var e := ValidateMinDisks(c, lds[1..]);
      if e.Some? then
        ghost var k :| 0 <= k < |lds[1..]| && e == CheckMinDisks(c, lds[1..][k])
          && forall j :: 0 <= j < k ==> CheckMinDisks(c, lds[1..][j]).None?;
        assert lds[k + 1] == lds[1..][k];
        assert forall j :: 0 <= j < k + 1 ==> CheckMinDisks(c, lds[j]).None?;
        e
      else
        assert forall k :: 1 <= k < |lds| ==> lds[k] == lds[1..][k - 1];
        e
  }

  /** An explicit count decides the check whatever `physical_disks` holds. */
  lemma CountTakesPrecedence(c: CliConstants, ld: LogicalDisk, other: Option<seq<string>>)
    requires ld.numberOfPhysicalDisks.Some?
    ensures CheckMinDisks(c, ld) == CheckMinDisks(c, ld.(physicalDisks := other))
  {
  }

  function FlushCommand(r: VdRecord): string
  {
    "-LdInfo -L" + r.id.Show() + " -a" + r.adapter.Show()
  }

  /** `__flush__`: without an adapter or an id nothing is issued; otherwise
      the drive's `-LdInfo` output is parsed in single mode into the object. */
  function FlushSpec(tool: Tool, r: VdRecord): (o: Outcome<VdRecord>)
    ensures r.adapter.PyNone? || r.id.PyNone? ==> o == Outcome(Some(InvalidParameterValue("")), [], r)
    ensures !r.adapter.PyNone? && !r.id.PyNone? ==> o.issued == [FlushCommand(r)]
  {
    if r.adapter.PyNone? || r.id.PyNone? then Outcome(Some(InvalidParameterValue("")), [], r)
    else
      var cmd := FlushCommand(r);
      var out := tool(cmd);
      if out.Err? then Outcome(Some(out.error), [cmd], r)
      else
        var run := Parse(r, out.value, false, []);
        Outcome(if run.parsed.Failed? then Some(run.parsed.error) else None, [cmd], run.state)
  }

  /** `create`: the disk references are checked first, then the creation
      command runs, the new id is read back from its output and the drive is
      flushed. */
  function CreateSpec(tool: Tool, c: CliConstants, level: string, items: seq<string>, r: VdRecord): (o: Outcome<VdRecord>)
    ensures FirstBadDisk(items).Some? ==> o == Outcome(Some(InvalidDiskFormater(FirstBadDisk(items).value)), [], r)
    ensures FirstBadDisk(items).None? ==> o.issued != [] && o.issued[0] == CreateCommand(c, level, items, r.adapter).0
  {
    var bad := FirstBadDisk(items);
    if bad.Some? then Outcome(Some(InvalidDiskFormater(bad.value)), [], r)
    else
      var cmd := CreateCommand(c, level, items, r.adapter).0;
      var out := tool(cmd);
      if out.Err? then Outcome(Some(out.error), [cmd], r)
      else
        var created := r.(id := RecoveredId(out.value));
        if !created.id.Truthy() then Outcome(Some(MegaCLIError("")), [cmd], created)
        else
          var flush := FlushSpec(tool, created);
          Outcome(flush.err, [cmd] + flush.issued, flush.state)
  }

  function DestroyCommand(r: VdRecord): string
  {
    "-CfgLdDel -L" + r.id.Show() + " -Force -a" + r.adapter.Show()
  }

  /** `destroy`: flush, delete the drive by its id, and forget the id. */
  function DestroySpec(tool: Tool, r: VdRecord): (o: Outcome<VdRecord>)
    ensures FlushSpec(tool, r).issued <= o.issued
    ensures o.err.None? ==> o.state.id.PyNone? && |o.issued| == |FlushSpec(tool, r).issued| + 1
  {
    var flush := FlushSpec(tool, r);
    if flush.err.Some? then flush
    else
      var cmd := DestroyCommand(flush.state);
      var out := tool(cmd);
      if out.Err? then Outcome(Some(out.error), flush.issued + [cmd], flush.state)
      else Outcome(None, flush.issued + [cmd], flush.state.(id := PyNone))
  }

  function GetAllCommand(adapter: PyVal): string
  {
    "-LdInfo -LALL -a" + adapter.Show()
  }

  /** Without an adapter or an id, `__flush__` issues no command; with both,
      exactly the `-LdInfo` command of that drive. */
  lemma FlushGuard(tool: Tool, r: VdRecord)
    ensures (r.adapter.PyNone? || r.id.PyNone?) <==> FlushSpec(tool, r).issued == []
    ensures r.adapter.PyNone? || r.id.PyNone? ==>
      FlushSpec(tool, r) == Outcome(Some(InvalidParameterValue("")), [], r)
    ensures !r.adapter.PyNone? && !r.id.PyNone? ==> FlushSpec(tool, r).issued == [FlushCommand(r)]
  {
  }

  /** A malformed disk reference is reported before any command is issued,
      and the first malformed one in list order is named. */
  lemma CreateChecksDisksFirst(tool: Tool, c: CliConstants, level: string, items: seq<string>, r: VdRecord)
    ensures var o := CreateSpec(tool, c, level, items, r);
      (exists k :: 0 <= k < |items| && !IsDiskRef(items[k])) <==> (o.issued == [] && o.err.Some? && o.err.value.InvalidDiskFormater?)
  {
    if FirstBadDisk(items).None? {
      var o := CreateSpec(tool, c, level, items, r);
      assert |o.issued| >= 1;
    }
  }

  /** A create whose output names no new drive ends with MegaCLIError and the
      id unset, after issuing only the creation command. */
  lemma CreateWithoutId(tool: Tool, c: CliConstants, level: string, items: seq<string>, r: VdRecord)
    requires FirstBadDisk(items).None?
    requires var out := tool(CreateCommand(c, level, items, r.adapter).0);
      out.Ok? && forall k :: 0 <= k < |out.value| ==> CreatedAt(out.value[k]) < 0
    ensures CreateSpec(tool, c, level, items, r)
      == Outcome(Some(MegaCLIError("")), [CreateCommand(c, level, items, r.adapter).0], r.(id := PyNone))
  {
    var k := RecoveredIdFirst(tool(CreateCommand(c, level, items, r.adapter).0).value);
  }

  /** A destroy that succeeds has issued the flush and then the delete
      command for the flushed id, and leaves the id unset. */
  lemma DestroyForgetsId(tool: Tool, r: VdRecord)
    ensures var o := DestroySpec(tool, r);
      o.err.None? ==> (o.state.id.PyNone? && |o.issued| == 2
        && o.issued[0] == FlushCommand(r) && o.issued[1] == DestroyCommand(FlushSpec(tool, r).state))
  {
  }

  /** A `VirtualDriver` object. */
  class VirtualDriver {
    var adapter: PyVal
    var id: PyVal
    var attrs: Attrs

    /** `copy.deepcopy(self)`: the object's attributes as a value. */
    function Snapshot(): VdRecord
      reads this
    {
      VdRecord(adapter, id, attrs)
    }

    constructor (adapterId: PyVal, id: PyVal)
      ensures Snapshot() == Initial(adapterId, id)
    {
      adapter := adapterId;
      this.id := id;
      attrs := InitialAttrs;
    }

    /** The elif chain of `_handle` for one line. */
    method ApplyField(line: string) returns (err: Option<Error>)
      modifies this
      ensures var s := SetField(old(Snapshot()), line);
        && (s.Ok? ==> err.None? && Snapshot() == s.value)
        && (s.Err? ==> err == Some(s.error) && Snapshot() == old(Snapshot()))
    {
      err := None;
      var f := Lookup(line, Chain);
      if f.Some? {
        var v := Convert(f.value.conv, line);
        if v.Err? {
          return Some(v.error);
        }
        attrs := attrs[f.value.attr := v.value];
      }
    }

    /** One pass of the loop body of `_handle`: what the line does to the
        object and to the snapshot list `vds`. */
    method HandleLine(line: string, multi: bool, vds: seq<VdRecord>) returns (st: Step<VdRecord>)
      modifies this
      ensures st == LineStep(old(Snapshot()), line, multi, vds)
      ensures st.Go? ==> Snapshot() == st.state
      ensures st.Stop? ==> Snapshot() == st.run.state
    {
      if IsBoundary(line) {
        if !multi && |vds| > 0 {
          return Stop(Run(Snapshot(), First(vds[0])));
        }
      }
      var vds1 := vds;
      if IsBoundary(line) {
        if !id.PyNone? {
          vds1 := vds + [Snapshot()];
        }
        var v := ParseInt(IdText(line));
        if v.None? {
          return Stop(Run(Snapshot(), Failed(ValueError(IdText(line)))));
        }
        id := PyInt(v.value);
      }
      var err := ApplyField(line);
      if err.Some? {
        return Stop(Run(Snapshot(), Failed(err.value)));
      }
      st := Go(Snapshot(), vds1);
    }

    /** `_handle`: the object is the accumulator; snapshots are collected in
        `vds`. */
    method Handle(lines: seq<string>, multi: bool) returns (out: Parsed<VdRecord>)
      modifies this
      ensures Run(Snapshot(), out) == Parse(old(Snapshot()), lines, multi, [])
    {
      var vds: seq<VdRecord> := [];
      var i := 0;
      while i < |lines|
        invariant 0 <= i <= |lines|
        invariant Parse(Snapshot(), lines[i..], multi, vds) == Parse(old(Snapshot()), lines, multi, [])
      {
        ParseUnfold(Snapshot(), lines[i..], multi, vds);
        assert lines[i..][0] == lines[i] && lines[i..][1..] == lines[i + 1..];
        var st := HandleLine(lines[i], multi, vds);
        if st.Stop? {
          return st.run.parsed;
        }
        vds := st.out;
        i := i + 1;
      }
      if !id.PyNone? {
        vds := vds + [Snapshot()];
      }
      out := Records(vds);
    }

    /** `__flush__`. */
    method Flush(tool: Tool) returns (err: Option<Error>, issued: seq<string>)
      modifies this
      ensures Outcome(err, issued, Snapshot()) == FlushSpec(tool, old(Snapshot()))
    {
      if adapter.PyNone? || id.PyNone? {
        return Some(InvalidParameterValue("")), [];
      }
      var cmd := FlushCommand(Snapshot());
      issued := [cmd];
      var ret := tool(cmd);
      if ret.Err? {
        return Some(ret.error), issued;
      }
      var parsed := Handle(ret.value, false);
      err := if parsed.Failed? then Some(parsed.error) else None;
    }

    /** `create`: validate the references, build the command (popping span
        groups from the caller's list), run it, read back the id, flush. */
    method Create(tool: Tool, c: CliConstants, raidLevel: string, disks: DiskList)
      returns (err: Option<Error>, issued: seq<string>)
      modifies this, disks
      ensures Outcome(err, issued, Snapshot()) == CreateSpec(tool, c, raidLevel, old(disks.items), old(Snapshot()))
      ensures FirstBadDisk(old(disks.items)).None? ==>
        disks.items == CreateCommand(c, raidLevel, old(disks.items), old(adapter)).1
      ensures FirstBadDisk(old(disks.items)).Some? ==> disks.items == old(disks.items)
    {
      var bad := FirstBadDisk(disks.items);
      if bad.Some? {
        return Some(InvalidDiskFormater(bad.value)), [];
      }
      var cmd := BuildCommand(c, raidLevel, disks);
      issued := [cmd];
      var ret := tool(cmd);
      if ret.Err? {
        return Some(ret.error), issued;
      }
      id := RecoverId(ret.value);
      if !id.Truthy() {
        return Some(MegaCLIError("")), issued;
      }
      var more;
      err, more := Flush(tool);
      issued := issued + more;
    }

    /** The command of `create` for the level; the span levels pop their
        groups from the caller's list. */
    method BuildCommand(c: CliConstants, raidLevel: string, disks: DiskList) returns (cmd: string)
      modifies disks
      ensures (cmd, disks.items) == CreateCommand(c, raidLevel, old(disks.items), adapter)
    {
      if IsPlainLevel(c, raidLevel) {
        cmd := "-CfgLdAdd -r" + MappedLevel(c, raidLevel) + " [" + Join(disks.items, ",") + "] -a" + adapter.Show();
      } else {
        var arrays := PopSpans(disks, SpanWidth(c, raidLevel));
        cmd := "-CfgSpanAdd -r" + MappedLevel(c, raidLevel) + " " + arrays + " Direct RA WB -a" + adapter.Show();
      }
    }

    /** `destroy`. */
    method Destroy(tool: Tool) returns (err: Option<Error>, issued: seq<string>)
      modifies this
      ensures Outcome(err, issued, Snapshot()) == DestroySpec(tool, old(Snapshot()))
    {
      err, issued := Flush(tool);
      if err.Some? {
        return;
      }
      var cmd := DestroyCommand(Snapshot());
      issued := issued + [cmd];
      var ret := tool(cmd);
      if ret.Err? {
        return Some(ret.error), issued;
      }
      id := PyNone;
    }

    /** `getall_virtual_drivers`: every drive of the adapter, in multi mode. */
    method GetAll(tool: Tool) returns (result: Parsed<VdRecord>, issued: seq<string>)
      modifies this
      ensures old(adapter).PyNone? ==>
        result == Failed(InvalidParameterValue("")) && issued == [] && Snapshot() == old(Snapshot())
      ensures !old(adapter).PyNone? ==> issued == [GetAllCommand(old(adapter))]
      ensures !old(adapter).PyNone? && tool(GetAllCommand(old(adapter))).Err? ==>
        result == Failed(tool(GetAllCommand(old(adapter))).error) && Snapshot() == old(Snapshot())
      ensures !old(adapter).PyNone? && tool(GetAllCommand(old(adapter))).Ok? ==>
        Run(Snapshot(), result) == Parse(old(Snapshot()), tool(GetAllCommand(old(adapter))).value, true, [])
    {
      if adapter.PyNone? {
        return Failed(InvalidParameterValue("")), [];
      }
      var cmd := GetAllCommand(adapter);
      issued := [cmd];
      var ret := tool(cmd);
      if ret.Err? {
        return Failed(ret.error), issued;
      }
      result := Handle(ret.value, true);
    }
  }

  /** One turn of a span loop: pop k disks from the front of the caller's
      list and format them as the group ` -Array<i>[d1,...,dk]`. */
  method PopGroup(disks: DiskList, k: nat, i: nat) returns (arg: string, group: seq<string>)
    requires k <= |disks.items|
    modifies disks
    ensures group == old(disks.items)[..k] && disks.items == old(disks.items)[k..]
    ensures arg == ArrayArg(i, group)
  {
    group := disks.PopMany(k);
    arg := ArrayArg(i, group);
  }

  /** `len(disks) / k`: the number of full groups. */
  method SpanCount(items: seq<string>, k: nat) returns (n: nat)
    requires 2 <= k <= 4
    ensures n == |Groups(items, k)|
  {
    GroupCount(items, k);
    n := |items| / k;
  }

  /** The span loop so far: the groups popped from `orig` are `done`, and
      `rest` holds the disks still in the caller's list. */
  ghost predicate SpanState(orig: seq<string>, k: nat, done: seq<seq<string>>, rest: seq<string>)
    requires k > 0
  {
    Groups(orig, k) == done + Groups(rest, k) && Leftover(orig, k) == Leftover(rest, k)
  }

  /** While a group is still due, the list holds one, and popping it keeps
      the span state. */
  lemma SpanAdvance(orig: seq<string>, k: nat, done: seq<seq<string>>, rest: seq<string>)
    requires k > 0 && SpanState(orig, k, done, rest) && |done| < |Groups(orig, k)|
    ensures |rest| >= k && SpanState(orig, k, done + [rest[..k]], rest[k..])
  {
    GroupsStep(rest, k);
    Snoc(done, rest[..k], Groups(rest[k..], k));
  }

  /** Once every group is popped, the list holds the leftover. */
  lemma SpanDone(orig: seq<string>, k: nat, done: seq<seq<string>>, rest: seq<string>)
    requires k > 0 && SpanState(orig, k, done, rest) && |done| == |Groups(orig, k)|
    ensures Groups(orig, k) == done && rest == Leftover(orig, k)
  {
    assert Groups(orig, k) == done + Groups(rest, k);
    assert done + Groups(rest, k) == done;
  }

  /** The span loops of `create`: `len(disks) / k` times, pop k disks from the
      front of the caller's list and append their ` -Array<i>[...]` group. */
  method PopSpans(disks: DiskList, k: nat) returns (arrays: string)
    requires 2 <= k <= 4
    modifies disks
    ensures arrays == ArrayArgs(Groups(old(disks.items), k))
    ensures disks.items == Leftover(old(disks.items), k)
  {
    ghost var orig := disks.items;
    ghost var done: seq<seq<string>> := [];
    var n := SpanCount(disks.items, k);
    arrays := "";
    var i := 0;
    while i < n
      invariant 0 <= i <= n == |Groups(orig, k)| && |done| == i
      invariant SpanState(orig, k, done, disks.items)
      invariant arrays == ArrayArgs(done)
    {
      SpanAdvance(orig, k, done, disks.items);
      var arg, group := PopGroup(disks, k, i);
      ArrayArgsSnoc(done, group);
      arrays := arrays + arg;
      done := done + [group];
      i := i + 1;
    }
    SpanDone(orig, k, done, disks.items);
  }

  lemma Snoc<T>(a: seq<T>, x: T, b: seq<T>)
    ensures a + ([x] + b) == (a + [x]) + b
  {
  }
}
