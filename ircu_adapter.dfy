/** The SAS IR adapter (`raid_ircu` adapter): the parser of the IR tool's
    `LIST` and `DISPLAY` output, `__flush__` and `get_adapters`.

    The parser finds the adapter table with the counter `ready`: it starts
    at 2, every line starting ' Index' takes one off it, and the line seen
    while it is 1 (the separator under the header) takes it to 0. A line
    seen at 0 that does not start with 'SAS3IRU' is a table row. The row is
    meant to fill seven columns (id, type, vendor, device, pci address,
    subsystem vendor and subsystem device) but the assignment reads the
    name `valuedds`, which the module never defines, so every row that is
    not skipped raises NameError (adapter.py:61). Only the id is ever set on
    the object, by `__init__`. */
module IrcuAdapter {
  import opened Lists
  import opened Text
  import opened Common

  /** The attributes of an `Adapter` object: only the id is ever set. */
  datatype IrAdRecord = IrAdRecord(id: PyVal)

  predicate IsIndex(line: string)
  {
    StartsWith(line, " Index")
  }

  /** The banner line of the IR tool. */
  predicate IsBanner(line: string)
  {
    StartsWith(line, "SAS3IRU")
  }

  /** The counter after a line. */
  function Countdown(ready: int, line: string): (next: int)
    ensures IsIndex(line) ==> next == ready - 1
    ensures !IsIndex(line) && ready == 1 ==> next == 0
    ensures !IsIndex(line) && ready != 1 ==> next == ready
  {
    if IsIndex(line) then ready - 1
    else if ready == 1 then 0
    else ready
  }

  /** The line is taken as a table row. */
  predicate IsRow(ready: int, line: string)
  {
    !IsIndex(line) && ready == 0 && !IsBanner(line)
  }

  /** `[i for i in line.split(' ') if i]`. */
  function Tokens(line: string): (ts: seq<string>)
    ensures forall k :: 0 <= k < |ts| ==> ts[k] != ""
  {
    Filter(Split(line, ' '), (t: string) => t != "")
  }

  /** The body of the loop of `_handle` for one line, with the counter at
      `ready`: single mode returns the first snapshot once one exists. In
      single mode a row raises IndexError when it has no token and is
      skipped when its first token is not the object's id (`continue`, so
      nothing is appended); in multi mode `and` short-circuits, so the
      tokens are never read. Every row not skipped raises NameError. Any
      other line appends a snapshot once the id is set. */
  function LineStep(r: IrAdRecord, line: string, multi: bool, ads: seq<IrAdRecord>, ready: int): (st: Step<IrAdRecord>)
    ensures !multi && |ads| > 0 ==> st == Stop(Run(r, First(ads[0])))
    ensures st.Go? ==> st.state == r
    ensures !multi && |ads| == 0 && IsRow(ready, line) && Tokens(line) == [] ==>
      st == Stop(Run(r, Failed(IndexError)))
    ensures !multi && |ads| == 0 && IsRow(ready, line) && Tokens(line) != [] ==>
      st == if PyStr(Tokens(line)[0]) != r.id then Go(r, ads) else Stop(Run(r, Failed(NameError("valuedds"))))
    ensures multi && IsRow(ready, line) ==> st == Stop(Run(r, Failed(NameError("valuedds"))))
    ensures !IsRow(ready, line) && (multi || |ads| == 0) ==>
      st == Go(r, if r.id.PyNone? then ads else ads + [r])
  {
    if !multi && |ads| > 0 then Stop(Run(r, First(ads[0])))
    else if IsRow(ready, line) then
      if !multi then
        var values := Tokens(line);
        if values == [] then Stop(Run(r, Failed(IndexError)))
        else if PyStr(values[0]) != r.id then Go(r, ads)
        else Stop(Run(r, Failed(NameError("valuedds"))))
      else Stop(Run(r, Failed(NameError("valuedds"))))
    else Go(r, if r.id.PyNone? then ads else ads + [r])
  }

  /** `_handle` as a fold over the lines, with the counter at `ready`. */
  function Parse(r: IrAdRecord, lines: seq<string>, multi: bool, ads: seq<IrAdRecord>, ready: int): Run<IrAdRecord>
    decreases |lines|
  {
    if lines == [] then Run(r, Records(ads))
    else
      match LineStep(r, lines[0], multi, ads, ready)
      case Stop(run) => run
      case Go(r1, ads1) => Parse(r1, lines[1..], multi, ads1, Countdown(ready, lines[0]))
  }

  /** One step of the fold, from line i on. */
  lemma ParseStep(r: IrAdRecord, lines: seq<string>, i: nat, multi: bool, ads: seq<IrAdRecord>, ready: int,
                  st: Step<IrAdRecord>)
    requires i < |lines| && st == LineStep(r, lines[i], multi, ads, ready)
    ensures Parse(r, lines[i..], multi, ads, ready)
      == if st.Stop? then st.run else Parse(st.state, lines[i + 1..], multi, st.out, Countdown(ready, lines[i]))
  {
    assert lines[i..][0] == lines[i] && lines[i..][1..] == lines[i + 1..];
  }

  /** The counter after a list of lines. */
  function ReadyAfter(ready: int, lines: seq<string>): int
    decreases |lines|
  {
    if lines == [] then ready else ReadyAfter(Countdown(ready, lines[0]), lines[1..])
  }

  /** No line of the list starts ' Index'. */
  predicate NoIndex(lines: seq<string>)
  {
    lines != [] ==> !IsIndex(lines[0]) && NoIndex(lines[1..])
  }

  /** Lines without ' Index' leave a counter other than 1 unchanged. */
  lemma {:induction false} ReadyHolds(ready: int, lines: seq<string>)
    requires ready != 1 && NoIndex(lines)
    ensures ReadyAfter(ready, lines) == ready
    decreases |lines|
  {
    if lines != [] {
      ReadyHolds(ready, lines[1..]);
    }
  }

  lemma {:induction false} ReadyAppend(ready: int, xs: seq<string>, ys: seq<string>)
    ensures ReadyAfter(ready, xs + ys) == ReadyAfter(ReadyAfter(ready, xs), ys)
    decreases |xs|
  {
    if xs != [] {
      assert (xs + ys)[0] == xs[0] && (xs + ys)[1..] == xs[1..] + ys;
      ReadyAppend(Countdown(ready, xs[0]), xs[1..], ys);
    } else {
      assert xs + ys == ys;
    }
  }

  /** The countdown locates the table: before the first ' Index' line the
      counter is 2, right after it 1, and from the line after the next one
      on it is 0 until another ' Index' line. So the lines before the
      header, the header and the separator under it are never rows, and
      every later line up to the next ' Index' line is a row unless it is
      the tool's banner. */
  lemma TableCountdown(pre: seq<string>, idx: string, next: string, rest: seq<string>)
    requires NoIndex(pre) && IsIndex(idx) && NoIndex(rest)
    ensures ReadyAfter(2, pre) == 2
    ensures ReadyAfter(2, pre + [idx]) == 1
    ensures ReadyAfter(2, pre + [idx, next] + rest) == 0
  {
    ReadyHolds(2, pre);
    ReadyAppend(2, pre, [idx]);
    ReadyAppend(2, pre, [idx, next] + rest);
    assert pre + [idx, next] + rest == pre + ([idx, next] + rest);
    assert ([idx, next] + rest)[1..] == [next] + rest;
    assert ([next] + rest)[1..] == rest;
    ReadyHolds(0, rest);
  }

  /** Some line is taken as a row, the counter starting at `ready`. */
  predicate HasRow(ready: int, lines: seq<string>)
    decreases |lines|
  {
    lines != [] && (IsRow(ready, lines[0]) || HasRow(Countdown(ready, lines[0]), lines[1..]))
  }

  /** A table with a row after its header and separator has a row. */
  lemma {:induction false} TableHasRow(pre: seq<string>, idx: string, next: string, row: string, rest: seq<string>)
    requires NoIndex(pre) && IsIndex(idx) && !IsIndex(row) && !IsBanner(row)
    ensures HasRow(2, pre + [idx, next, row] + rest)
    decreases |pre|
  {
    var lines := pre + [idx, next, row] + rest;
    if pre == [] {
      assert lines[1..] == [next, row] + rest && lines[1..][1..] == [row] + rest;
      assert IsRow(0, ([row] + rest)[0]);
    } else {
      assert lines[0] == pre[0] && lines[1..] == pre[1..] + [idx, next, row] + rest;
      TableHasRow(pre[1..], idx, next, row, rest);
    }
  }

  /** `get_adapters` as written: from an object without an id it never
      lists an adapter, and it fails exactly when the output holds a row,
      always with NameError, whatever the row holds. */
  lemma {:induction false} MultiNeverLists(r: IrAdRecord, lines: seq<string>, ready: int)
    requires r.id.PyNone?
    ensures Parse(r, lines, true, [], ready).state == r
    ensures !HasRow(ready, lines) ==> Parse(r, lines, true, [], ready).parsed == Records([])
    ensures HasRow(ready, lines) ==>
      Parse(r, lines, true, [], ready).parsed == Failed(NameError("valuedds"))
    decreases |lines|
  {
    if lines != [] {
      var st := LineStep(r, lines[0], true, [], ready);
      ParseStep(r, lines, 0, true, [], ready, st);
      assert lines[0..] == lines;
      if st.Go? {
        MultiNeverLists(r, lines[1..], Countdown(ready, lines[0]));
      }
    }
  }

  /** In single mode a row is kept only when its first token equals the
      object's id as a string: an integer id never matches a token, so
      every row is skipped. */
  lemma IntIdSkipsRows(r: IrAdRecord, line: string, ready: int)
    requires r.id.PyInt? && IsRow(ready, line) && Tokens(line) != []
    ensures LineStep(r, line, false, [], ready) == Go(r, [])
  {
  }

  /** `__flush__` as written: with an id set, a first line that is not a
      row appends the object, and the next line returns that snapshot, so
      the table row is never read. */
  lemma FlushReturnsSelf(r: IrAdRecord, lines: seq<string>, ready: int)
    requires !r.id.PyNone? && |lines| >= 2 && !IsRow(ready, lines[0])
    ensures Parse(r, lines, false, [], ready) == Run(r, First(r))
  {
    var st := LineStep(r, lines[0], false, [], ready);
    ParseStep(r, lines, 0, false, [], ready, st);
    assert lines[0..] == lines;
    var st2 := LineStep(r, lines[1], false, [r], Countdown(ready, lines[0]));
    ParseStep(r, lines, 1, false, [r], Countdown(ready, lines[0]), st2);
  }

  function FlushCommand(r: IrAdRecord): string
  {
    r.id.Show() + " DISPLAY"
  }

  /** `__flush__`: an object without an id is refused before any command;
      otherwise the adapter's `DISPLAY` output is parsed in single mode and
      the parse result is returned. */
  function FlushSpec(tool: Tool, r: IrAdRecord): (c: Call<IrAdRecord>)
    ensures r.id.PyNone? <==> c.issued == []
    ensures r.id.PyNone? ==> c.run == Run(r, Failed(InvalidParameterValue("")))
    ensures !r.id.PyNone? ==> c.issued == [FlushCommand(r)]
    ensures !r.id.PyNone? && tool(FlushCommand(r)).Ok? ==>
      c.run == Parse(r, tool(FlushCommand(r)).value, false, [], 2)
  {
    if r.id.PyNone? then Call([], Run(r, Failed(InvalidParameterValue(""))))
    else
      var cmd := FlushCommand(r);
      var out := tool(cmd);
      if out.Err? then Call([cmd], Run(r, Failed(out.error)))
      else Call([cmd], Parse(r, out.value, false, [], 2))
  }

  /** An `Adapter` object. */
  class Adapter {
    var id: PyVal

    /** `self.copy()`. */
    function Snapshot(): IrAdRecord
      reads this
    {
      IrAdRecord(id)
    }

    constructor (id: PyVal)
      ensures Snapshot() == IrAdRecord(id)
    {
      this.id := id;
    }

    /** One pass of the loop body of `_handle`. */
    method HandleLine(line: string, multi: bool, ads: seq<IrAdRecord>, ready: int) returns (st: Step<IrAdRecord>)
      ensures st == LineStep(Snapshot(), line, multi, ads, ready)
    {
      if !multi && |ads| > 0 {
        return Stop(Run(Snapshot(), First(ads[0])));
      }
      if IsRow(ready, line) {
        if !multi {
          var values := Tokens(line);
          if values == [] {
            return Stop(Run(Snapshot(), Failed(IndexError)));
          }
          if PyStr(values[0]) != id {
            return Go(Snapshot(), ads);
          }
        }
        return Stop(Run(Snapshot(), Failed(NameError("valuedds"))));
      }
      st := Go(Snapshot(), if id.PyNone? then ads else ads + [Snapshot()]);
    }

    /** `_handle`: `ready` is the countdown that locates the table. */
    method Handle(lines: seq<string>, multi: bool) returns (out: Parsed<IrAdRecord>)
      ensures Run(Snapshot(), out) == Parse(Snapshot(), lines, multi, [], 2)
    {
      var ads: seq<IrAdRecord> := [];
      var ready := 2;
      var i := 0;
      while i < |lines|
        invariant 0 <= i <= |lines|
        invariant Parse(Snapshot(), lines[i..], multi, ads, ready) == Parse(Snapshot(), lines, multi, [], 2)
      {
        var st := HandleLine(lines[i], multi, ads, ready);
        ParseStep(Snapshot(), lines, i, multi, ads, ready, st);
        if st.Stop? {
          return st.run.parsed;
        }
        ads := st.out;
        ready := Countdown(ready, lines[i]);
        i := i + 1;
      }
      out := Records(ads);
    }

    /** `__flush__`. */
    method Flush(tool: Tool) returns (issued: seq<string>, out: Parsed<IrAdRecord>)
      ensures Call(issued, Run(Snapshot(), out)) == FlushSpec(tool, Snapshot())
    {
      if id.PyNone? {
        return [], Failed(InvalidParameterValue(""));
      }
      var cmd := FlushCommand(Snapshot());
      issued := [cmd];
      var ret := tool(cmd);
      if ret.Err? {
        return issued, Failed(ret.error);
      }
      out := Handle(ret.value, false);
    }

    /** `get_adapters`: the `LIST` output parsed in multi mode. */
    method GetAdapters(tool: Tool) returns (out: Parsed<IrAdRecord>)
      ensures tool("LIST").Err? ==> out == Failed(tool("LIST").error)
      ensures tool("LIST").Ok? ==> Run(Snapshot(), out) == Parse(Snapshot(), tool("LIST").value, true, [], 2)
    {
      var ret := tool("LIST");
      if ret.Err? {
        return Failed(ret.error);
      }
      out := Handle(ret.value, true);
    }
  }
}
