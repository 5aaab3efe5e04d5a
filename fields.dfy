/** The label chains of the record parsers: an if/elif chain of
    `line.startswith(label)` tests, each branch storing the text after the
    first ':' (trimmed, possibly cut at a marker, possibly passed to `int()`)
    into one attribute of the accumulator object. A chain is written here as
    a table in chain order, and the descriptive attributes it writes are kept
    by attribute name, as Python keeps them in the object's `__dict__`. */
module Fields {
  import opened Lists
  import opened Text
  import opened Common

  /** How a branch turns its line into the attribute's value. */
  datatype Conv =
    | Str                                  // line[offset + 1:].strip()
    | Int                                  // int(line[offset + 1:].strip())
    | StrTo(marker: string, back: nat)     // line[offset + 1:line.find(marker) - back].strip()
    | IntTo(marker: string, back: nat)     // int(line[offset + 1:line.find(marker) - back].strip())
    | Undefined(name: string)              // the slice end is a name the module never defines

  /** One branch of a chain: the label that selects it, the attribute it
      writes and the conversion of the value. */
  datatype Field = Field(prefix: string, attr: string, conv: Conv)

  /** Attributes of an object by name. */
  type Attrs = map<string, PyVal>

  /** `int(text)`, raising ValueError when the text is not an integer. */
  function IntValue(text: string): (v: Result<PyVal>)
    ensures v.Ok? <==> ParseInt(text).Some?
    ensures v.Ok? ==> v.value == PyInt(ParseInt(text).value)
    ensures v.Err? ==> v.error == ValueError(text)
  {
    var n := ParseInt(text);
    if n.None? then Err(ValueError(text)) else Ok(PyInt(n.value))
  }

  /** `line[line.find(':') + 1:line.find(marker) - back].strip()`. */
  function CutText(line: string, marker: string, back: nat): string
  {
    ColonTo(line, Find(line, marker) - back)
  }

  /** The value a branch stores, or the exception it raises. */
  function Convert(c: Conv, line: string): (v: Result<PyVal>)
    ensures v.Err? <==> (c.Undefined? || (c.Int? && ParseInt(AfterColon(line)).None?)
                         || (c.IntTo? && ParseInt(CutText(line, c.marker, c.back)).None?))
    ensures c.Undefined? ==> v == Err(NameError(c.name))
    ensures v.Err? && !c.Undefined? ==> v.error.ValueError?
    ensures v.Ok? && (c.Str? || c.StrTo?) ==> v.value.PyStr?
    ensures v.Ok? && (c.Int? || c.IntTo?) ==> v.value.PyInt?
  {
    match c
    case Str => Ok(PyStr(AfterColon(line)))
    case Int => IntValue(AfterColon(line))
    case StrTo(m, b) => Ok(PyStr(CutText(line, m, b)))
    case IntTo(m, b) => IntValue(CutText(line, m, b))
    case Undefined(n) => Err(NameError(n))
  }

  /** The first branch of the chain whose label starts the line. */
  function Lookup(line: string, table: seq<Field>): (f: Option<Field>)
    ensures f.Some? ==> f.value in table && StartsWith(line, f.value.prefix)
    ensures f.None? ==> forall k :: 0 <= k < |table| ==> !StartsWith(line, table[k].prefix)
  {
    if table == [] then None
    else if StartsWith(line, table[0].prefix) then Some(table[0])
    else
      var f := Lookup(line, table[1..]);
      assert forall k :: 1 <= k < |table| ==> table[k] == table[1..][k - 1];
      f
  }

  /** The chain takes branch i when the line starts with its label and with
      none of the labels before it. */
  lemma {:induction false} LookupAt(line: string, table: seq<Field>, i: nat)
    requires i < |table| && StartsWith(line, table[i].prefix)
    requires forall j :: 0 <= j < i ==> !StartsWith(line, table[j].prefix)
    ensures Lookup(line, table) == Some(table[i])
    decreases i
  {
    if i > 0 {
      assert forall j :: 0 <= j < i - 1 ==> table[1..][j] == table[j + 1];
      LookupAt(line, table[1..], i - 1);
    }
  }

  /** A value cut at a unit marker: for `head:v<unit>tail`, where neither
      the colon nor the marker occurs earlier, the branch stores v stripped,
      whatever follows the marker. */
  lemma CutAtUnit(head: string, v: string, unit: string, tail: string)
    requires !Contains(head, ":")
    requires |unit| > 0 && !Contains(head + ":" + v + unit[..|unit| - 1], unit)
    ensures Convert(StrTo(unit, 0), head + ":" + v + unit + tail) == Ok(PyStr(Strip(v)))
  {
    ColonToUnit(head, v, unit, tail);
  }

  /** A value cut some characters before a marker: for `head:v<skip>m<tail>`,
      where neither the colon nor the marker character m occurs earlier, the
      branch that cuts |skip| characters before m stores v stripped. */
  lemma CutBack(head: string, v: string, skip: string, m: char, tail: string)
    requires !Contains(head, ":") && !Contains(head + ":" + v + skip, [m])
    ensures Convert(StrTo([m], |skip|), head + ":" + v + skip + [m] + tail) == Ok(PyStr(Strip(v)))
  {
    CutAt(head, v, skip, m, tail);
  }

  /** For `head:v<skip>m<tail>`, where neither the colon nor the marker
      character m occurs earlier, the text cut |skip| characters before m
      is v stripped. */
  lemma CutAt(head: string, v: string, skip: string, m: char, tail: string)
    requires !Contains(head, ":") && !Contains(head + ":" + v + skip, [m])
    ensures CutText(head + ":" + v + skip + [m] + tail, [m], |skip|) == Strip(v)
  {
    var line := head + ":" + v + skip + [m] + tail;
    CutPieces(head, v, skip, m, tail);
    CutFrom(line, [m], |skip|, |head|, |head| + 1 + |v|, v);
  }

  /** The text cut between a colon at c and a cut point at e. */
  lemma CutFrom(line: string, marker: string, back: nat, c: int, e: int, v: string)
    requires Find(line, ":") == c && Find(line, marker) - back == e && Slice(line, c + 1, e) == v
    ensures CutText(line, marker, back) == Strip(v)
  {
  }

  lemma CutPieces(head: string, v: string, skip: string, m: char, tail: string)
    requires !Contains(head, ":") && !Contains(head + ":" + v + skip, [m])
    ensures var line := head + ":" + v + skip + [m] + tail;
      && Find(line, ":") == |head|
      && Find(line, [m]) == |head| + 1 + |v| + |skip|
      && Slice(line, |head| + 1, |head| + 1 + |v|) == v
  {
    var p := head + ":" + v + skip;
    assert head + ":" + v + skip + [m] + tail == head + ":" + (v + skip + [m] + tail);
    ColonAt(head, v + skip + [m] + tail);
    assert p + [m][..0] == p;
    FindAfterPrefix(p, [m], tail);
    assert head + ":" + v + skip + [m] + tail == (head + ":") + v + (skip + [m] + tail);
    SliceBetween(head + ":", v, skip + [m] + tail);
  }

  /** An integer-cutting branch converts the text it cuts. */
  lemma IntCut(line: string, marker: string, back: nat, v: string)
    requires CutText(line, marker, back) == v
    ensures Convert(IntTo(marker, back), line) == IntValue(v)
  {
  }

  /** The chain run on one line: at most the one attribute of the branch it
      takes changes; a line that starts with no label changes nothing. */
  function Assign(attrs: Attrs, line: string, table: seq<Field>): (r: Result<Attrs>)
    ensures Lookup(line, table).None? ==> r == Ok(attrs)
    ensures Lookup(line, table).Some? ==> var f := Lookup(line, table).value;
      && (r.Err? <==> Convert(f.conv, line).Err?)
      && (r.Err? ==> r.error == Convert(f.conv, line).error)
      && (r.Ok? ==> r.value == attrs[f.attr := Convert(f.conv, line).value])
  {
    var f := Lookup(line, table);
    if f.None? then Ok(attrs)
    else
      var v := Convert(f.value.conv, line);
      if v.Err? then Err(v.error) else Ok(attrs[f.value.attr := v.value])
  }

  /** Each line writes at most one attribute: every other attribute keeps
      its value, and only the branch's attribute can be added. */
  lemma AtMostOneAttr(attrs: Attrs, line: string, table: seq<Field>)
    ensures var r := Assign(attrs, line, table);
      r.Ok? ==> (exists a :: r.value.Keys <= attrs.Keys + {a}
                   && forall b :: b in attrs && b != a ==> b in r.value && r.value[b] == attrs[b])
  {
    var r := Assign(attrs, line, table);
    if r.Ok? {
      var f := Lookup(line, table);
      var a := if f.Some? then f.value.attr else "";
      assert r.value.Keys <= attrs.Keys + {a};
    }
  }
}
