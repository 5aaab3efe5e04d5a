/** The MegaCLI adapter: the parser of `-AdpAllInfo` output and the two
    commands that feed it.

    The accumulator object is never re-initialised between records: a field
    that record k+1 does not list keeps record k's value, and a field no
    record lists is never set (the object starts with its id only). */
module MegaAdapter {
  import opened Lists
  import opened Text
  import opened Common
  import opened Fields

  /** The attributes of an `Adapter` object: the id, and the descriptive
      attributes set so far by name. */
  datatype AdRecord = AdRecord(id: PyVal, attrs: Attrs)

  /** `Adapter(id)`: only the id is set. */
  function Initial(id: PyVal): AdRecord
  {
    AdRecord(id, map[])
  }

  /** A record starts at a line beginning 'Adapter #'. */
  predicate IsHeader(line: string)
  {
    StartsWith(line, "Adapter #")
  }

  /** `line[9:].strip()`, the adapter number of a header line. */
  function HeaderId(line: string): string
  {
    Strip(Drop(line, 9))
  }

  /** What a branch of the elif chain stores: the text after the colon,
      stripped, or the flag that `str2bool` makes of the unstripped text. */
  datatype Label = Ignored | Text(attr: string) | Flag(attr: string)

  /** The elif chain after the header test, in chain order. */
  const Chain: seq<(string, Label)> := [
    ("Product Name", Text("product_name")), ("Serial No", Text("serial_number")),
    ("FW Package Build", Text("fw_package_build")), ("FW Version", Text("fw_version")),
    ("BIOS Version", Text("bios_version")), ("WebBIOS Version", Text("webbios_version")),
    ("Preboot CLI Version", Text("preboot_cli_version")), ("Boot Block Version", Text("boot_block_version")),
    ("SAS Address", Text("sas_address")), ("BBU", Flag("bbu_present")), ("Alarm", Flag("alarm_present")),
    ("NVRAM", Flag("nvram_present")), ("Serial Debugger", Flag("serial_debugger_present")),
    ("Flash", Flag("flash_present")), ("Memory Size", Text("memory_size"))]

  /** The chain on a line that is not a header; it cannot fail. `str2bool`
      is a function of the package that is not part of this model, so it is
      a parameter. */
  function SetField(r: AdRecord, line: string, str2bool: string -> bool): (s: AdRecord)
    ensures s.id == r.id
  {
    match FirstLabel(line, Chain, Ignored)
    case Ignored => r
    case Text(a) => r.(attrs := r.attrs[a := PyStr(AfterColon(line))])
    case Flag(a) => r.(attrs := r.attrs[a := PyBool(str2bool(RawAfterColon(line)))])
  }

  /** The body of the loop of `_handle` for one line: single mode returns
      the first snapshot as soon as one exists; a header appends the state
      when its id is set and then reads the new id; any other line runs the
      chain. */
  function LineStep(r: AdRecord, line: string, multi: bool, ads: seq<AdRecord>, str2bool: string -> bool)
    : (st: Step<AdRecord>)
    ensures !multi && |ads| > 0 ==> st == Stop(Run(r, First(ads[0])))
    ensures st.Stop? && (multi || |ads| == 0) ==>
      IsHeader(line) && ParseInt(HeaderId(line)).None? && st.run == Run(r, Failed(ValueError(HeaderId(line))))
    ensures st.Go? && IsHeader(line) ==>
      && ParseInt(HeaderId(line)).Some?
      && st.state == r.(id := PyInt(ParseInt(HeaderId(line)).value))
      && st.out == (if r.id.PyNone? then ads else ads + [r])
    ensures st.Go? && !IsHeader(line) ==> st.state.id == r.id && st.out == ads
  {
    if !multi && |ads| > 0 then Stop(Run(r, First(ads[0])))
    else if IsHeader(line) then
      var ads1 := if r.id.PyNone? then ads else ads + [r];
      var v := IntValue(HeaderId(line));
      if v.Err? then Stop(Run(r, Failed(v.error))) else Go(r.(id := v.value), ads1)
    else Go(SetField(r, line, str2bool), ads)
  }

  /** `_handle` as a fold over the lines; at the end the state is appended
      when its id is set. */
  function Parse(r: AdRecord, lines: seq<string>, multi: bool, ads: seq<AdRecord>, str2bool: string -> bool)
    : Run<AdRecord>
    decreases |lines|
  {
    if lines == [] then Run(r, Records(if r.id.PyNone? then ads else ads + [r]))
    else
      match LineStep(r, lines[0], multi, ads, str2bool)
      case Stop(run) => run
      case Go(r1, ads1) => Parse(r1, lines[1..], multi, ads1, str2bool)
  }

  /** One step of the fold, from line i on. */
  lemma ParseStep(r: AdRecord, lines: seq<string>, i: nat, multi: bool, ads: seq<AdRecord>,
                  str2bool: string -> bool, st: Step<AdRecord>)
    requires i < |lines| && st == LineStep(r, lines[i], multi, ads, str2bool)
    ensures Parse(r, lines[i..], multi, ads, str2bool)
      == if st.Stop? then st.run else Parse(st.state, lines[i + 1..], multi, st.out, str2bool)
  {
    assert lines[i..][0] == lines[i] && lines[i..][1..] == lines[i + 1..];
  }

  /** The number of header lines. */
  function Headers(lines: seq<string>): nat
  {
    if lines == [] then 0 else (if IsHeader(lines[0]) then 1 else 0) + Headers(lines[1..])
  }

  /** Every header line carries an integer. */
  predicate HeadersParse(lines: seq<string>)
  {
    lines != [] ==>
      (IsHeader(lines[0]) ==> ParseInt(HeaderId(lines[0])).Some?) && HeadersParse(lines[1..])
  }

  /** The ids the header lines carry, in order (None where the text is not
      an integer). */
  function HeaderIds(lines: seq<string>): (ids: seq<PyVal>)
    ensures |ids| == Headers(lines)
  {
    if lines == [] then []
    else
      var v := ParseInt(HeaderId(lines[0]));
      (if IsHeader(lines[0]) then [if v.Some? then PyInt(v.value) else PyNone] else [])
      + HeaderIds(lines[1..])
  }

  function Ids(ads: seq<AdRecord>): (ids: seq<PyVal>)
    ensures |ids| == |ads| && forall k :: 0 <= k < |ads| ==> ids[k] == ads[k].id
  {
    if ads == [] then [] else [ads[0].id] + Ids(ads[1..])
  }

  lemma IdsAppend(a: seq<AdRecord>, b: seq<AdRecord>)
    ensures Ids(a + b) == Ids(a) + Ids(b)
  {
  }

  lemma Regroup<T>(a: seq<T>, b: seq<T>, c: seq<T>, d: seq<T>)
    ensures a + b + c + d == a + b + (c + d)
  {
  }

  /** Multi mode fails exactly when a header line does not carry an
      integer, and never returns a single record. */
  lemma {:induction false} MultiFailsOnBadHeader(r: AdRecord, lines: seq<string>, ads: seq<AdRecord>,
                                                str2bool: string -> bool)
    ensures var out := Parse(r, lines, true, ads, str2bool).parsed;
      !out.First? && (out.Failed? <==> !HeadersParse(lines))
    decreases |lines|
  {
    if lines != [] {
      var st := LineStep(r, lines[0], true, ads, str2bool);
      ParseStep(r, lines, 0, true, ads, str2bool, st);
      assert lines[0..] == lines;
      if st.Go? {
        MultiFailsOnBadHeader(st.state, lines[1..], st.out, str2bool);
      }
    }
  }

  /** In multi mode every header contributes exactly one snapshot, in order,
      carrying the header's id; a state whose id is set contributes one more
      before them. */
  lemma {:induction false} MultiIds(r: AdRecord, lines: seq<string>, ads: seq<AdRecord>, str2bool: string -> bool)
    ensures var out := Parse(r, lines, true, ads, str2bool).parsed;
      out.Records? ==> Ids(out.records) == Ids(ads) + (if r.id.PyNone? then [] else [r.id]) + HeaderIds(lines)
    decreases |lines|
  {
    var own: seq<PyVal> := if r.id.PyNone? then [] else [r.id];
    if lines == [] {
      IdsAppend(ads, [r]);
      assert Ids(ads) + own + HeaderIds(lines) == Ids(ads) + own;
    } else {
      var line := lines[0];
      var st := LineStep(r, line, true, ads, str2bool);
      ParseStep(r, lines, 0, true, ads, str2bool, st);
      assert lines[0..] == lines;
      if st.Go? {
        var out := Parse(st.state, lines[1..], true, st.out, str2bool).parsed;
        MultiIds(st.state, lines[1..], st.out, str2bool);
        if out.Records? && IsHeader(line) {
          var tail := HeaderIds(lines[1..]);
          IdsAppend(ads, [r]);
          assert Ids(st.out) == Ids(ads) + own;
          assert HeaderIds(lines) == [st.state.id] + tail;
          Regroup(Ids(ads), own, [st.state.id], tail);
        } else if out.Records? {
          assert HeaderIds(lines) == HeaderIds(lines[1..]);
        }
      }
    }
  }

  /** From an object without an id, N header lines give exactly N
      snapshots whose ids are those of the headers, in source order; no
      header gives the empty list. */
  lemma MultiCount(r: AdRecord, lines: seq<string>, str2bool: string -> bool)
    requires r.id.PyNone?
    ensures var out := Parse(r, lines, true, [], str2bool).parsed;
      out.Records? ==> |out.records| == Headers(lines) && Ids(out.records) == HeaderIds(lines)
  {
    MultiIds(r, lines, [], str2bool);
  }

  /** Multi mode keeps the snapshots it starts with at the front. */
  lemma {:induction false} MultiKeepsPrefix(r: AdRecord, lines: seq<string>, ads: seq<AdRecord>,
                                           str2bool: string -> bool)
    ensures var out := Parse(r, lines, true, ads, str2bool).parsed;
      out.Records? ==> ads <= out.records
    decreases |lines|
  {
    if lines != [] {
      var st := LineStep(r, lines[0], true, ads, str2bool);
      ParseStep(r, lines, 0, true, ads, str2bool, st);
      assert lines[0..] == lines;
      if st.Go? {
        MultiKeepsPrefix(st.state, lines[1..], st.out, str2bool);
      }
    }
  }

  /** Single mode returns at the top of the first line it reads once a
      snapshot exists; a header appends one when the id is already set, and
      every header sets the id. */
  predicate ReturnsEarly(lines: seq<string>, hasId: bool, started: bool)
    decreases |lines|
  {
    lines != [] &&
      (started || ReturnsEarly(lines[1..], hasId || IsHeader(lines[0]), hasId && IsHeader(lines[0])))
  }

  /** Single mode agrees with multi mode: when it has no line to return at
      it runs exactly like multi mode; otherwise it returns the first
      snapshot multi mode lists. */
  lemma {:induction false} SingleAgreesWithMulti(r: AdRecord, lines: seq<string>, ads: seq<AdRecord>,
                                                str2bool: string -> bool)
    ensures !ReturnsEarly(lines, !r.id.PyNone?, |ads| > 0) ==>
      Parse(r, lines, false, ads, str2bool) == Parse(r, lines, true, ads, str2bool)
    ensures var multi := Parse(r, lines, true, ads, str2bool).parsed;
      ReturnsEarly(lines, !r.id.PyNone?, |ads| > 0) && multi.Records? ==>
        |multi.records| > 0 && Parse(r, lines, false, ads, str2bool).parsed == First(multi.records[0])
    decreases |lines|
  {
    if lines != [] {
      if |ads| > 0 {
        MultiKeepsPrefix(r, lines, ads, str2bool);
        var st := LineStep(r, lines[0], false, ads, str2bool);
        ParseStep(r, lines, 0, false, ads, str2bool, st);
        assert lines[0..] == lines;
      } else {
        var st := LineStep(r, lines[0], true, ads, str2bool);
        assert LineStep(r, lines[0], false, ads, str2bool) == st;
        ParseStep(r, lines, 0, true, ads, str2bool, st);
        ParseStep(r, lines, 0, false, ads, str2bool, st);
        assert lines[0..] == lines;
        if st.Go? {
          SingleAgreesWithMulti(st.state, lines[1..], st.out, str2bool);
        }
      }
    }
  }

  /** A header line changes the id and nothing else: the next record starts
      from every field of the previous one. */
  lemma HeaderKeepsFields(r: AdRecord, line: string, ads: seq<AdRecord>, str2bool: string -> bool)
    requires IsHeader(line) && ParseInt(HeaderId(line)).Some?
    ensures var st := LineStep(r, line, true, ads, str2bool);
      st.Go? && st.state.attrs == r.attrs && st.state.id == PyInt(ParseInt(HeaderId(line)).value)
  {
  }

  /** `__flush__` as written, on an object whose id is set and output that
      starts with its header: the header appends the object as it was, and
      single mode returns that stale copy at the next line, before any field
      is read. */
  lemma FlushReturnsStale(r: AdRecord, lines: seq<string>, str2bool: string -> bool)
    requires !r.id.PyNone? && |lines| >= 2 && IsHeader(lines[0]) && ParseInt(HeaderId(lines[0])).Some?
    ensures Parse(r, lines, false, [], str2bool)
      == Run(r.(id := PyInt(ParseInt(HeaderId(lines[0])).value)), First(r))
  {
    var st := LineStep(r, lines[0], false, [], str2bool);
    ParseStep(r, lines, 0, false, [], str2bool, st);
    assert lines[0..] == lines;
    var st1 := LineStep(st.state, lines[1], false, st.out, str2bool);
    ParseStep(st.state, lines, 1, false, st.out, str2bool, st1);
  }

  /** A line starting 'BBU' stores the flag `str2bool` makes of the text
      after the colon. */
  lemma BbuFlag(r: AdRecord, line: string, str2bool: string -> bool)
    requires StartsWith(line, "BBU")
    ensures SetField(r, line, str2bool)
      == r.(attrs := r.attrs["bbu_present" := PyBool(str2bool(RawAfterColon(line)))])
  {
    forall j | 0 <= j < 9
      ensures !StartsWith(line, Chain[j].0)
    {
      PrefixClash(line, "BBU", Chain[j].0, if j == 4 || j == 7 then 1 else 0);
    }
    FirstLabelAt(line, Chain, Ignored, 9);
  }

  /** 'Serial Debugger' is a flag, not the serial number: the earlier
      'Serial No' branch does not take it. */
  lemma SerialDebuggerFlag(r: AdRecord, line: string, str2bool: string -> bool)
    requires StartsWith(line, "Serial Debugger")
    ensures SetField(r, line, str2bool)
      == r.(attrs := r.attrs["serial_debugger_present" := PyBool(str2bool(RawAfterColon(line)))])
  {
    forall j | 0 <= j < 12
      ensures !StartsWith(line, Chain[j].0)
    {
      PrefixClash(line, "Serial Debugger", Chain[j].0, if j == 1 then 7 else if j == 8 then 1 else 0);
    }
    FirstLabelAt(line, Chain, Ignored, 12);
  }

  /** A line starting 'Serial No' stores the trimmed text as the serial
      number. */
  lemma SerialNumberText(r: AdRecord, line: string, str2bool: string -> bool)
    requires StartsWith(line, "Serial No")
    ensures SetField(r, line, str2bool) == r.(attrs := r.attrs["serial_number" := PyStr(AfterColon(line))])
  {
    PrefixClash(line, "Serial No", "Product Name", 0);
    FirstLabelAt(line, Chain, Ignored, 1);
  }

  /** The command `__flush__` issues. */
  function FlushCommand(r: AdRecord): string
  {
    "-AdpAllInfo -a" + r.id.Show()
  }

  /** `__flush__`: an object without an id is refused before any command;
      otherwise the adapter's output is parsed in single mode and the parse
      result is returned. */
  function FlushSpec(tool: Tool, str2bool: string -> bool, r: AdRecord): (c: Call<AdRecord>)
    ensures r.id.PyNone? <==> c.issued == []
    ensures r.id.PyNone? ==> c.run == Run(r, Failed(InvalidParameterValue("")))
    ensures !r.id.PyNone? ==> c.issued == [FlushCommand(r)]
    ensures !r.id.PyNone? && tool(FlushCommand(r)).Ok? ==>
      c.run == Parse(r, tool(FlushCommand(r)).value, false, [], str2bool)
  {
    if r.id.PyNone? then Call([], Run(r, Failed(InvalidParameterValue(""))))
    else
      var cmd := FlushCommand(r);
      var out := tool(cmd);
      if out.Err? then Call([cmd], Run(r, Failed(out.error)))
      else Call([cmd], Parse(r, out.value, false, [], str2bool))
  }

  /** An `Adapter` object. */
  class Adapter {
    var id: PyVal
    var attrs: Attrs

    /** `self.copy()`. */
    function Snapshot(): AdRecord
      reads this
    {
      AdRecord(id, attrs)
    }

    constructor (id: PyVal)
      ensures Snapshot() == Initial(id)
    {
      this.id := id;
      attrs := map[];
    }

    /** One pass of the loop body of `_handle`. */
    method HandleLine(line: string, multi: bool, ads: seq<AdRecord>, str2bool: string -> bool)
      returns (st: Step<AdRecord>)
      modifies this
      ensures st == LineStep(old(Snapshot()), line, multi, ads, str2bool)
      ensures st.Go? ==> Snapshot() == st.state
      ensures st.Stop? ==> Snapshot() == st.run.state
    {
      if !multi && |ads| > 0 {
        return Stop(Run(Snapshot(), First(ads[0])));
      }
      if IsHeader(line) {
        ghost var r := Snapshot();
        st := ReadHeader(line, ads, str2bool);
        assert LineStep(r, line, multi, ads, str2bool) == LineStep(r, line, true, ads, str2bool);
        return;
      }
      ApplyField(line, str2bool);
      st := Go(Snapshot(), ads);
    }

    /** The header branch: append the state when its id is set, then read
        the new id. */
    method ReadHeader(line: string, ads: seq<AdRecord>, str2bool: string -> bool) returns (st: Step<AdRecord>)
      requires IsHeader(line)
      modifies this
      ensures st == LineStep(old(Snapshot()), line, true, ads, str2bool)
      ensures st.Go? ==> Snapshot() == st.state
      ensures st.Stop? ==> Snapshot() == st.run.state
    {
      var ads1 := if id.PyNone? then ads else ads + [Snapshot()];
      var v := IntValue(HeaderId(line));
      if v.Err? {
        return Stop(Run(Snapshot(), Failed(v.error)));
      }
      id := v.value;
      st := Go(Snapshot(), ads1);
    }

    /** The elif chain for a line that is not a header. */
    method ApplyField(line: string, str2bool: string -> bool)
      modifies this
      ensures Snapshot() == SetField(old(Snapshot()), line, str2bool)
    {
      var branch := FirstLabel(line, Chain, Ignored);
      match branch {
        case Ignored =>
        case Text(a) => attrs := attrs[a := PyStr(AfterColon(line))];
        case Flag(a) => attrs := attrs[a := PyBool(str2bool(RawAfterColon(line)))];
      }
    }

    /** `_handle`: the object is the accumulator; each header appends the
        previous record, and the last one is appended after the loop. */
    method Handle(lines: seq<string>, multi: bool, str2bool: string -> bool) returns (out: Parsed<AdRecord>)
      modifies this
      ensures Run(Snapshot(), out) == Parse(old(Snapshot()), lines, multi, [], str2bool)
    {
      var ads: seq<AdRecord> := [];
      var i := 0;
      while i < |lines|
        invariant 0 <= i <= |lines|
        invariant Parse(Snapshot(), lines[i..], multi, ads, str2bool) == Parse(old(Snapshot()), lines, multi, [], str2bool)
      {
        ghost var r := Snapshot();
        var st := HandleLine(lines[i], multi, ads, str2bool);
        ParseStep(r, lines, i, multi, ads, str2bool, st);
        if st.Stop? {
          return st.run.parsed;
        }
        ads := st.out;
        i := i + 1;
      }
      if !id.PyNone? {
        ads := ads + [Snapshot()];
      }
      out := Records(ads);
    }

    /** `__flush__`. */
    method Flush(tool: Tool, str2bool: string -> bool) returns (issued: seq<string>, out: Parsed<AdRecord>)
      modifies this
      ensures Call(issued, Run(Snapshot(), out)) == FlushSpec(tool, str2bool, old(Snapshot()))
    {
      if id.PyNone? {
        return [], Failed(InvalidParameterValue(""));
      }
      var cmd := FlushCommand(Snapshot());
      issued := [cmd];
      var ret := tool(cmd);
      if ret.Err? {
        return issued, Failed(ret.error);
      }
      out := Handle(ret.value, false, str2bool);
    }

    /** `get_adapters`: every adapter's output parsed in multi mode. */
    method GetAdapters(tool: Tool, str2bool: string -> bool) returns (out: Parsed<AdRecord>)
      modifies this
      ensures tool("-AdpAllInfo -aALL").Err? ==>
        out == Failed(tool("-AdpAllInfo -aALL").error) && Snapshot() == old(Snapshot())
      ensures tool("-AdpAllInfo -aALL").Ok? ==>
        Run(Snapshot(), out) == Parse(old(Snapshot()), tool("-AdpAllInfo -aALL").value, true, [], str2bool)
    {
      var ret := tool("-AdpAllInfo -aALL");
      if ret.Err? {
        return Failed(ret.error);
      }
      out := Handle(ret.value, true, str2bool);
    }
  }
}
