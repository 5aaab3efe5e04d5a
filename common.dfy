/** Values, error kinds and small pieces of command-line text handling that
    both controller families share. */
module Common {
  import opened Lists
  import opened Text

  /** The Python values that the modelled attributes hold: None, a bool, an
      int or a str. An id is an int when parsed from a listing but a str when
      it is recovered from the output of a create command. */
  datatype PyVal = PyNone | PyBool(b: bool) | PyInt(i: int) | PyStr(s: string)
  {
    /** Python truthiness: None, 0 and '' are false. */
    predicate Truthy()
    {
      match this
      case PyNone => false
      case PyBool(b) => b
      case PyInt(i) => i != 0
      case PyStr(s) => s != ""
    }

    /** `'%s' % v`. */
    function Show(): string
    {
      match this
      case PyNone => "None"
      case PyBool(b) => if b then "True" else "False"
      case PyInt(i) => FormatInt(i)
      case PyStr(s) => s
    }
  }

  /** The exceptions of the package (InvalidParameterValue, InvalidDiskFormater,
      MegaCLIError, PhysicalDisksNotFoundError, PathNotFound) and the built-in
      Python exceptions that the modelled code can raise. */
  datatype Error =
    | InvalidParameterValue(message: string)
    | InvalidDiskFormater(disk: string)
    | MegaCLIError(message: string)
    | PhysicalDisksNotFoundError
    | PathNotFound(path: string)
    | KeyError(key: string)
    | ValueError(literal: string)
    | NameError(name: string)
    | AttributeError(name: string)
    | IndexError
    | UnboundLocalError(name: string)

  datatype Result<T> = Ok(value: T) | Err(error: Error)

  /** The vendor tool: a command line in, the lines of its output or the
      error it raised (a non-zero exit or a missing binary) out. */
  type Tool = string -> Result<seq<string>>

  /** What a record parser ends with: an exception, the single record that
      single-record mode returns early, or the list of snapshots. */
  datatype Parsed<R> = Failed(error: Error) | First(record: R) | Records(records: seq<R>)

  /** The accumulator object's state after a parse, and what the parse returned. */
  datatype Run<R> = Run(state: R, parsed: Parsed<R>)

  /** A successful run lists `extra` more snapshots than it started with,
      after them. */
  predicate Counted<R(==)>(run: Run<R>, start: seq<R>, extra: nat)
  {
    run.parsed.Records? ==> |run.parsed.records| == |start| + extra && start <= run.parsed.records
  }

  lemma CountedCons<R>(run: Run<R>, start: seq<R>, more: seq<R>, extra: nat)
    requires Counted(run, start + more, extra)
    ensures Counted(run, start, |more| + extra)
  {
  }

  /** What one line does to a parse: stop with what `_handle` returns, or
      go on with the accumulator's new state and the snapshots so far. */
  datatype Step<R> = Stop(run: Run<R>) | Go(state: R, out: seq<R>)

  /** The outcome of a method that issues commands: the exception it raised,
      if any, the command lines it issued and the object's state afterwards. */
  datatype Outcome<R> = Outcome(err: Option<Error>, issued: seq<string>, state: R)

  /** What a command-issuing method did: the command lines it issued, the
      object's state afterwards and what it returned or raised. */
  datatype Call<R> = Call(issued: seq<string>, run: Run<R>)

  /** `line[line.find(':') + 1:]`. */
  function RawAfterColon(line: string): string
  {
    Drop(line, Find(line, ":") + 1)
  }

  /** `line[line.find(':') + 1:].strip()`. */
  function AfterColon(line: string): string
  {
    Strip(RawAfterColon(line))
  }

  /** `line[line.find(':') + 1:end].strip()` for a cut index `end`. */
  function ColonTo(line: string, end: int): string
  {
    Strip(Slice(line, Find(line, ":") + 1, end))
  }

  /** When the line is `head + ":" + v + unit + tail` and neither the colon nor
      the unit marker occurs earlier, the text cut between them is v stripped. */
  lemma ColonToUnit(head: string, v: string, unit: string, tail: string)
    requires !Contains(head, ":")
    requires |unit| > 0 && !Contains(head + ":" + v + unit[..|unit| - 1], unit)
    ensures var line := head + ":" + v + unit + tail;
      ColonTo(line, Find(line, unit)) == Strip(v)
  {
    var line := head + ":" + v + unit + tail;
    ColonAt(head, v + unit + tail);
    assert line == head + ":" + (v + unit + tail);
    FindAfterPrefix(head + ":" + v, unit, tail);
    SliceBetween(head + ":", v, unit + tail);
    assert line == (head + ":") + v + (unit + tail);
  }

  /** ColonToUnit for a one-character marker. */
  lemma ColonToChar(head: string, v: string, m: char, tail: string)
    requires !Contains(head, ":") && !Contains(head + ":" + v, [m])
    ensures var line := head + ":" + v + [m] + tail;
      ColonTo(line, Find(line, [m])) == Strip(v)
  {
    assert head + ":" + v + [m][..0] == head + ":" + v;
    ColonToUnit(head, v, [m], tail);
  }

  /** The first colon of head + ":" + rest is the one after head. */
  lemma ColonAt(head: string, rest: string)
    requires !Contains(head, ":")
    ensures Find(head + ":" + rest, ":") == |head|
  {
    assert head + ":"[..0] == head;
    FindAfterPrefix(head, ":", rest);
  }

  lemma SliceBetween(p: string, v: string, b: string)
    ensures Slice(p + v + b, |p|, |p| + |v|) == v
  {
    assert (p + v + b)[|p|..|p| + |v|] == v;
  }

  /** The field of the first (prefix, field) entry whose prefix starts the
      line, or `none`: an if/elif chain of `line.startswith(prefix)` tests
      written as a table in chain order. */
  function FirstLabel<L>(line: string, table: seq<(string, L)>, none: L): L
    decreases |table|
  {
    if table == [] then none
    else if StartsWith(line, table[0].0) then table[0].1
    else FirstLabel(line, table[1..], none)
  }

  /** The chain picks entry i when the line starts with its prefix and with
      none of the prefixes before it. */
  lemma {:induction false} FirstLabelAt<L>(line: string, table: seq<(string, L)>, none: L, i: nat)
    requires i < |table| && StartsWith(line, table[i].0)
    requires forall j :: 0 <= j < i ==> !StartsWith(line, table[j].0)
    ensures FirstLabel(line, table, none) == table[i].1
    decreases i
  {
    if i > 0 {
      assert forall j :: 0 <= j < i - 1 ==> table[1..][j] == table[j + 1];
      FirstLabelAt(line, table[1..], none, i - 1);
    }
  }

  /** The chain finds nothing when no prefix starts the line. */
  lemma {:induction false} FirstLabelNone<L>(line: string, table: seq<(string, L)>, none: L)
    requires forall j :: 0 <= j < |table| ==> !StartsWith(line, table[j].0)
    ensures FirstLabel(line, table, none) == none
    decreases |table|
  {
    if table != [] {
      assert forall j :: 0 <= j < |table| - 1 ==> table[1..][j] == table[j + 1];
      FirstLabelNone(line, table[1..], none);
    }
  }

  /** A line that starts with p does not start with a q that differs from p
      at position i. */
  lemma PrefixClash(line: string, p: string, q: string, i: nat)
    requires StartsWith(line, p) && i < |p| && i < |q| && p[i] != q[i]
    ensures !StartsWith(line, q)
  {
    assert line[i] == p[i];
  }

  /** The body of `^[0-9]+:[0-9]+` matched up to the end of s. */
  predicate IsRefBody(s: string)
  {
    var k := Find(s, ":");
    0 < k < |s| - 1 && AllDigits(s[..k]) && AllDigits(s[k + 1..])
  }

  /** `re.match(r'^[0-9]+:[0-9]+$', s)` succeeds; Python's `$` also matches
      just before a final newline. */
  predicate IsDiskRef(s: string)
  {
    IsRefBody(s) || (|s| > 0 && s[|s| - 1] == '\n' && IsRefBody(s[..|s| - 1]))
  }

  /** The first disk reference of the list that fails the pattern, if any:
      the one the validation loop of `create` raises InvalidDiskFormater for. */
  function FirstBadDisk(disks: seq<string>): (r: Option<string>)
    ensures r.None? <==> forall k :: 0 <= k < |disks| ==> IsDiskRef(disks[k])
    ensures r.Some? ==> exists k :: (0 <= k < |disks| && disks[k] == r.value && !IsDiskRef(disks[k])
      && forall j :: 0 <= j < k ==> IsDiskRef(disks[j]))
  {
    if disks == [] then None
    else if !IsDiskRef(disks[0]) then Some(disks[0])
    else
      var r := FirstBadDisk(disks[1..]);
      if r.Some? then
        ghost var k :| 0 <= k < |disks[1..]| && disks[1..][k] == r.value && !IsDiskRef(disks[1..][k])
          && forall j :: 0 <= j < k ==> IsDiskRef(disks[1..][j]);
        assert disks[k + 1] == r.value && forall j :: 0 <= j < k + 1 ==> IsDiskRef(disks[j]);
        r
      else
        assert forall k :: 1 <= k < |disks| ==> disks[k] == disks[1..][k - 1];
        r
  }

  /** `"%s:%s" % (e, s)` for non-negative enclosure and slot numbers passes
      the disk reference pattern. */
  lemma FormattedRefMatches(e: nat, s: nat)
    ensures IsDiskRef(FormatNat(e) + ":" + FormatNat(s))
  {
    var p := FormatNat(e);
    var line := p + ":" + FormatNat(s);
    forall k | 0 <= k < |p| ensures p[k] != ':' { assert IsDigit(p[k]); }
    NotContainsChar(p, ':');
    assert p + ":"[..0] == p;
    FindAfterPrefix(p, ":", FormatNat(s));
    assert line[..|p|] == p && line[|p| + 1..] == FormatNat(s);
  }

  /** `line.find('Created VD')`. */
  function CreatedAt(line: string): int
  {
    Find(line, "Created VD")
  }

  /** The id that `create` reads back: the text 11 characters after
      'Created VD' on the first line that holds it, or None. */
  function RecoveredId(lines: seq<string>): (v: PyVal)
    ensures v.PyNone? || v.PyStr?
    ensures (forall k :: 0 <= k < |lines| ==> CreatedAt(lines[k]) < 0) ==> v.PyNone?
  {
    if lines == [] then PyNone
    else if CreatedAt(lines[0]) >= 0 then PyStr(Drop(lines[0], CreatedAt(lines[0]) + 11))
    else RecoveredId(lines[1..])
  }

  /** The id read back comes from the first line holding 'Created VD', at
      index k, and is None exactly when no line holds it (k == |lines|). */
  lemma {:induction false} RecoveredIdFirst(lines: seq<string>) returns (k: nat)
    ensures k <= |lines|
    ensures forall j :: 0 <= j < k ==> CreatedAt(lines[j]) < 0
    ensures k == |lines| <==> RecoveredId(lines).PyNone?
    ensures k < |lines| ==>
      CreatedAt(lines[k]) >= 0 && RecoveredId(lines) == PyStr(Drop(lines[k], CreatedAt(lines[k]) + 11))
    decreases |lines|
  {
    if lines == [] || CreatedAt(lines[0]) >= 0 {
      k := 0;
    } else {
      var k1 := RecoveredIdFirst(lines[1..]);
      k := k1 + 1;
      assert forall j :: 1 <= j < |lines| ==> lines[j] == lines[1..][j - 1];
    }
  }

  /** The loop of `create` that scans the tool's output for the new id. */
  method RecoverId(lines: seq<string>) returns (id: PyVal)
    ensures id == RecoveredId(lines)
  {
    id := PyNone;
    var i := 0;
    while i < |lines|
      invariant 0 <= i <= |lines|
      invariant RecoveredId(lines) == RecoveredId(lines[i..])
    {
      assert lines[i..][1..] == lines[i + 1..];
      var offset := CreatedAt(lines[i]);
      if offset < 0 {
        i := i + 1;
        continue;
      }
      id := PyStr(Drop(lines[i], offset + 11));
      return;
    }
  }

  /** A Python list of disk references owned by the caller; `create` pops
      from it. */
  class DiskList {
    var items: seq<string>

    constructor (items: seq<string>)
      ensures this.items == items
    {
      this.items := items;
    }

    /** `list.pop(0)`. */
    method PopFront() returns (x: string)
      requires items != []
      modifies this
      ensures x == old(items)[0] && items == old(items)[1..]
    {
      x := items[0];
      items := items[1..];
    }

    /** k calls of `list.pop(0)` in a row, their results in call order. */
    method PopMany(k: nat) returns (group: seq<string>)
      requires k <= |items|
      modifies this
      ensures group == old(items)[..k] && items == old(items)[k..]
    {
      group := [];
      var j := 0;
      while j < k
        invariant 0 <= j <= k
        invariant group == old(items)[..j] && items == old(items)[j..]
      {
        var d := PopFront();
        group := group + [d];
        assert old(items)[..j + 1] == old(items)[..j] + [old(items)[j]];
        j := j + 1;
      }
    }
  }
}
