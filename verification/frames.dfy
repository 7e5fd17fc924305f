/** The nonce-framed shell answers of an Android panel: the section parser against a
    declarative grammar, and both round trips with the printer. */
module Frames {
  import opened Wrappers

  const MAX_SHELL_RESPONSE_BYTES := 32 * 1024

  // ----- text -----

  /** Bytes a character takes in UTF-8. */
  function Utf8Width(c: char): nat {
    if c as int < 0x80 then 1 else if c as int < 0x800 then 2 else if c as int < 0x10000 then 3 else 4
  }

  function Utf8Size(s: string): nat {
    if s == "" then 0 else Utf8Width(s[0]) + Utf8Size(s[1..])
  }

  /** Where a line ends: line feed, carriage return, vertical tab, form feed, the file, group
      and record separators, next line, and the Unicode line and paragraph separators. */
  predicate Breaks(c: char) {
    c == '\n' || c == '\r' || c == '\U{0B}' || c == '\U{0C}' || c == '\U{1C}' || c == '\U{1D}' || c == '\U{1E}'
    || c == '\U{85}' || c == '\U{2028}' || c == '\U{2029}'
  }

  predicate OneLine(s: string) { forall c :: c in s ==> !Breaks(c) }

  function CrLfFolded(s: string): string {
    if s == "" then ""
    else if |s| >= 2 && s[0] == '\r' && s[1] == '\n' then "\n" + CrLfFolded(s[2..])
    else [s[0]] + CrLfFolded(s[1..])
  }

  /** The lines of `s`, `cur` being what the first one already holds. */
  function SplitOn(s: string, cur: string): seq<string> {
    if s == "" then (if cur == "" then [] else [cur])
    else if Breaks(s[0]) then [cur] + SplitOn(s[1..], "")
    else SplitOn(s[1..], cur + [s[0]])
  }

  function Joined(lines: seq<string>): string {
    if lines == [] then "" else lines[0] + "\n" + Joined(lines[1..])
  }

  /** A received body: undecodable bytes, or the text they decode to. */
  datatype Body = Undecodable | Text(text: string)

  function DecodeLines(body: Body): Option<seq<string>> {
    if body.Undecodable? || body.text == "" || Utf8Size(body.text) > MAX_SHELL_RESPONSE_BYTES then None
    else
      var text := CrLfFolded(body.text);
      if '\r' in text || text[|text| - 1..] != "\n" then None else Some(SplitOn(text, ""))
  }

  // ----- markers -----

  datatype Section = Section(values: seq<string>, status: nat)

  /** The markers of one exchange. */
  datatype Marks = Marks(prefix: string, nonce: string)
  {
    function Begin(): string { "HAPANELD_" + prefix + "_BEGIN:" + nonce }
    function End(): string { "HAPANELD_" + prefix + "_END:" + nonce }
    function SectionBegin(name: string): string { "HAPANELD_" + prefix + "_" + name + "_BEGIN:" + nonce }
    function SectionEnd(name: string): string { "HAPANELD_" + prefix + "_" + name + "_END:" + nonce + ":" }
  }

  const RESERVED := "HAPANELD_"

  predicate IsReserved(line: string) { RESERVED <= line }

  predicate Digits(s: string) { forall i :: 0 <= i < |s| ==> '0' <= s[i] <= '9' }

  function DigitsValue(s: string): nat
    requires Digits(s)
  {
    if s == "" then 0
    else DigitsValue(s[..|s| - 1]) * 10 + (s[|s| - 1] as int - '0' as int)
  }

  /** The exit status in a section's end marker, if `line` is one. */
  function StatusIn(line: string, end: string): Option<nat> {
    if end <= line && 1 <= |line| - |end| <= 3 && Digits(line[|end|..]) then Some(DigitsValue(line[|end|..])) else None
  }

  function Digit(n: nat): char
    requires n < 10
  {
    '0' + n as char
  }

  function Decimal(n: nat): string {
    if n < 10 then [Digit(n)] else Decimal(n / 10) + [Digit(n % 10)]
  }

  // ----- the grammar -----

  predicate Clean(s: Section) {
    s.status <= 999 && forall v :: v in s.values ==> OneLine(v) && !IsReserved(v)
  }

  /** The lines of one section when its status is spelled `digits`. */
  function SectionLines(k: Marks, name: string, s: Section, digits: string): seq<string> {
    [k.SectionBegin(name)] + s.values + [k.SectionEnd(name) + digits]
  }

  predicate Spells(digits: string, status: nat) {
    1 <= |digits| <= 3 && Digits(digits) && DigitsValue(digits) == status
  }

  /** `lines` are the sections `found` of `names`, one after the other. */
  ghost predicate Sections(k: Marks, lines: seq<string>, names: seq<string>, found: seq<Section>)
    decreases |names|
  {
    |found| == |names|
    && if names == [] then lines == []
       else
         exists digits, n :: 0 <= n <= |lines| && Spells(digits, found[0].status)
           && lines[..n] == SectionLines(k, names[0], found[0], digits)
           && (forall v :: v in found[0].values ==> !IsReserved(v))
           && Sections(k, lines[n..], names[1..], found[1..])
  }

  /** A whole framed answer. */
  ghost predicate Framed(k: Marks, lines: seq<string>, names: seq<string>, found: seq<Section>) {
    |lines| >= 2 && lines[0] == k.Begin() && lines[|lines| - 1] == k.End()
    && Sections(k, lines[1..|lines| - 1], names, found)
  }

  // ----- the parser's specification -----

  /** The section that starts after its begin marker, and the number of lines it takes. */
  function Scan(lines: seq<string>, end: string): Option<(Section, nat)> {
    if lines == [] then None
    else if StatusIn(lines[0], end).Some? then Some((Section([], StatusIn(lines[0], end).value), 1))
    else if IsReserved(lines[0]) then None
    else
      match Scan(lines[1..], end)
      case None => None
      case Some(found) => Some((Section([lines[0]] + found.0.values, found.0.status), found.1 + 1))
  }

  lemma ScanTakes(lines: seq<string>, end: string)
    ensures Scan(lines, end).Some? ==> 1 <= Scan(lines, end).value.1 <= |lines|
  {}

  function ScanAll(k: Marks, lines: seq<string>, names: seq<string>): (r: Option<seq<Section>>)
    ensures r.Some? ==> |r.value| == |names|
    decreases |names|
  {
    if names == [] then (if lines == [] then Some([]) else None)
    else if lines == [] || lines[0] != k.SectionBegin(names[0]) then None
    else
      match Scan(lines[1..], k.SectionEnd(names[0]))
      case None => None
      case Some(found) =>
        ScanTakes(lines[1..], k.SectionEnd(names[0]));
        match ScanAll(k, lines[1 + found.1..], names[1..])
        case None => None
        case Some(rest) => Some([found.0] + rest)
  }

  function Named(names: seq<string>, found: seq<Section>): map<string, Section>
    requires |found| == |names|
  {
    if names == [] then map[] else Named(names[..|names| - 1], found[..|names| - 1])[names[|names| - 1] := found[|names| - 1]]
  }

  function ParsedLines(k: Marks, lines: seq<string>, names: seq<string>): Option<map<string, Section>> {
    if |lines| < 2 || lines[0] != k.Begin() || lines[|lines| - 1] != k.End() then None
    else
      match ScanAll(k, lines[1..|lines| - 1], names)
      case None => None
      case Some(found) => Some(Named(names, found))
  }

  function ParsedBody(k: Marks, body: Body, names: seq<string>): Option<map<string, Section>> {
    match DecodeLines(body)
    case None => None
    case Some(lines) => ParsedLines(k, lines, names)
  }

  /** The sections already found, then those the rest yields. */
  ghost function Continued(found: seq<Section>, rest: Option<seq<Section>>): Option<seq<Section>> {
    match rest
    case None => None
    case Some(more) => Some(found + more)
  }

  lemma ContinuedOne(found: seq<Section>, one: Section, rest: Option<seq<Section>>)
    ensures Continued(found, Continued([one], rest)) == Continued(found + [one], rest)
  {
    if rest.Some? {
      assert found + ([one] + rest.value) == found + [one] + rest.value;
    }
  }

  lemma NamedOne(names: seq<string>, i: nat, found: seq<Section>, one: Section)
    requires i < |names| && |found| == i
    ensures Named(names[..i + 1], found + [one]) == Named(names[..i], found)[names[i] := one]
  {
    assert names[..i + 1][..i] == names[..i] && (found + [one])[..i] == found;
  }

  /** One name of the grammar's recursion. */
  lemma ScanAllOne(k: Marks, lines: seq<string>, names: seq<string>)
    requires names != [] && lines != [] && lines[0] == k.SectionBegin(names[0])
    ensures var one := Scan(lines[1..], k.SectionEnd(names[0]));
      && (one.None? ==> ScanAll(k, lines, names).None?)
      && (one.Some? ==> one.value.1 < |lines|)
      && (one.Some? ==>
            ScanAll(k, lines, names) == Continued([one.value.0], ScanAll(k, lines[1 + one.value.1..], names[1..])))
  {
    ScanTakes(lines[1..], k.SectionEnd(names[0]));
    var one := Scan(lines[1..], k.SectionEnd(names[0]));
    if one.Some? {
      var rest := ScanAll(k, lines[1 + one.value.1..], names[1..]);
      if rest.None? {
        assert ScanAll(k, lines, names).None?;
      } else {
        assert ScanAll(k, lines, names) == Some([one.value.0] + rest.value);
      }
    }
  }

  /** The parser's loop: one offset through the lines, one name at a time. */
  method ParseSections(k: Marks, body: Body, names: seq<string>) returns (parsed: Option<map<string, Section>>)
    ensures parsed == ParsedBody(k, body, names)
  {
    var decoded := DecodeLines(body);
    if decoded.None? { return None; }
    var lines := decoded.value;
    if |lines| < 2 || lines[0] != k.Begin() || lines[|lines| - 1] != k.End() { return None; }
    parsed := ParseInner(k, lines[1..|lines| - 1], names);
  }

  method ParseInner(k: Marks, inner: seq<string>, names: seq<string>) returns (parsed: Option<map<string, Section>>)
    ensures parsed.Some? <==> ScanAll(k, inner, names).Some?
    ensures parsed.Some? ==> parsed.value == Named(names, ScanAll(k, inner, names).value)
  {
    var offset, i := 0, 0;
    var sections: map<string, Section> := map[];
    ghost var found: seq<Section> := [];
    NothingFound(k, inner, names);
    while i < |names|
      invariant 0 <= i <= |names| && 0 <= offset <= |inner| && |found| == i
      invariant sections == Named(names[..i], found)
      invariant ScanAll(k, inner, names) == Continued(found, ScanAll(k, inner[offset..], names[i..]))
    {
      var section, taken := ParseNamed(k, inner[offset..], names[i]);
      OneMore(k, inner, names, offset, i, found);
      if section.None? { return None; }
      NamedOne(names, i, found, section.value);
      sections := sections[names[i] := section.value];
      found := found + [section.value];
      offset := offset + taken;
      i := i + 1;
    }
    AllFound(k, inner, names, offset, found);
    parsed := if offset == |inner| then Some(sections) else None;
  }

  /** The section that starts at the head of `lines`. */
  ghost function Head(k: Marks, lines: seq<string>, name: string): Option<(Section, nat)> {
    if lines == [] || lines[0] != k.SectionBegin(name) then None
    else
      match Scan(lines[1..], k.SectionEnd(name))
      case None => None
      case Some(found) => Some((found.0, found.1 + 1))
  }

  method ParseNamed(k: Marks, lines: seq<string>, name: string) returns (section: Option<Section>, taken: nat)
    ensures section.None? <==> Head(k, lines, name).None?
    ensures section.Some? ==> Head(k, lines, name) == Some((section.value, taken)) && taken <= |lines|
  {
    if lines == [] || lines[0] != k.SectionBegin(name) { return None, 0; }
    section, taken := ParseOne(lines[1..], k.SectionEnd(name));
    taken := taken + 1;
  }

  lemma NothingFound(k: Marks, inner: seq<string>, names: seq<string>)
    ensures ScanAll(k, inner, names) == Continued([], ScanAll(k, inner[0..], names[0..]))
  {
    assert inner[0..] == inner && names[0..] == names;
    var all := ScanAll(k, inner, names);
    assert all.Some? ==> [] + all.value == all.value;
  }

  lemma OneMore(k: Marks, inner: seq<string>, names: seq<string>, offset: nat, i: nat, found: seq<Section>)
    requires offset <= |inner| && i < |names|
    ensures var head := Head(k, inner[offset..], names[i]);
      && (head.None? ==> Continued(found, ScanAll(k, inner[offset..], names[i..])).None?)
      && (head.Some? ==> head.value.1 <= |inner| - offset)
      && (head.Some? ==>
            Continued(found, ScanAll(k, inner[offset..], names[i..]))
            == Continued(found + [head.value.0], ScanAll(k, inner[offset + head.value.1..], names[i + 1..])))
  {
    var lines := inner[offset..];
    if lines != [] && lines[0] == k.SectionBegin(names[i]) {
      ScanAllOne(k, lines, names[i..]);
      var one := Scan(lines[1..], k.SectionEnd(names[i]));
      if one.Some? {
        assert lines[1 + one.value.1..] == inner[offset + 1 + one.value.1..];
        assert names[i..][1..] == names[i + 1..];
        ContinuedOne(found, one.value.0, ScanAll(k, inner[offset + 1 + one.value.1..], names[i + 1..]));
      }
    }
  }

  lemma AllFound(k: Marks, inner: seq<string>, names: seq<string>, offset: nat, found: seq<Section>)
    requires offset <= |inner| && |found| == |names|
    requires ScanAll(k, inner, names) == Continued(found, ScanAll(k, inner[offset..], names[|names|..]))
    ensures names[..|names|] == names
    ensures ScanAll(k, inner, names) == if offset == |inner| then Some(found) else None
  {
    assert found + [] == found;
  }

  method ParseOne(lines: seq<string>, end: string) returns (section: Option<Section>, taken: nat)
    ensures section.Some? <==> Scan(lines, end).Some?
    ensures section.Some? ==> Scan(lines, end) == Some((section.value, taken)) && taken <= |lines|
  {
    var values: seq<string>, offset := [], 0;
    assert lines[0..] == lines;
    assert Scan(lines, end).Some? ==> [] + Scan(lines, end).value.0.values == Scan(lines, end).value.0.values;
    while offset < |lines|
      invariant 0 <= offset <= |lines| && |values| == offset
      invariant Scan(lines, end) == Resumed(values, Scan(lines[offset..], end))
    {
      var status := StatusIn(lines[offset], end);
      if status.Some? {
        assert values + [] == values;
        return Some(Section(values, status.value)), offset + 1;
      }
      if IsReserved(lines[offset]) { return None, 0; }
      assert lines[offset..][1..] == lines[offset + 1..];
      ResumedOne(values, lines[offset], Scan(lines[offset + 1..], end));
      values := values + [lines[offset]];
      offset := offset + 1;
    }
    section, taken := None, 0;
  }

  /** A scan that has already collected `values`. */
  ghost function Resumed(values: seq<string>, rest: Option<(Section, nat)>): Option<(Section, nat)> {
    match rest
    case None => None
    case Some(found) => Some((Section(values + found.0.values, found.0.status), found.1 + |values|))
  }

  lemma ResumedOne(values: seq<string>, line: string, rest: Option<(Section, nat)>)
    ensures Resumed(values, Resumed([line], rest)) == Resumed(values + [line], rest)
  {
    if rest.Some? {
      assert values + ([line] + rest.value.0.values) == values + [line] + rest.value.0.values;
    }
  }

  // ----- the parser computes the grammar -----

  /** The lines of a section after its begin marker. */
  ghost predicate Tail(lines: seq<string>, end: string, s: Section, n: nat) {
    n <= |lines| && n == |s.values| + 1 && lines[..n - 1] == s.values
    && (forall v :: v in s.values ==> !IsReserved(v))
    && StatusIn(lines[n - 1], end) == Some(s.status)
  }

  /** What scanning finds is such a tail. */
  lemma {:induction false} ScanFindsTail(lines: seq<string>, end: string)
    requires Scan(lines, end).Some?
    ensures Tail(lines, end, Scan(lines, end).value.0, Scan(lines, end).value.1)
    decreases |lines|
  {
    if StatusIn(lines[0], end).None? {
      ScanFindsTail(lines[1..], end);
      var found := Scan(lines[1..], end).value;
      var s := Section([lines[0]] + found.0.values, found.0.status);
      assert Section(s.values[1..], s.status) == found.0;
      TailShorter(lines, end, s, found.1 + 1);
    }
  }

  /** And a tail is what scanning finds: no value can pass for an end marker. */
  lemma {:induction false} TailIsScanned(lines: seq<string>, end: string, s: Section, n: nat)
    requires IsReserved(end) && Tail(lines, end, s, n)
    ensures Scan(lines, end) == Some((s, n))
    decreases |lines|
  {
    if s.values == [] {
      assert s == Section([], s.status);
    } else {
      TailShorter(lines, end, s, n);
      var rest := Section(s.values[1..], s.status);
      TailIsScanned(lines[1..], end, rest, n - 1);
      assert [lines[0]] + rest.values == s.values;
      OrdinaryLine(lines[0], end);
    }
  }

  lemma OrdinaryLine(line: string, end: string)
    ensures IsReserved(end) && !IsReserved(line) ==> StatusIn(line, end).None?
  {
    if end <= line && IsReserved(end) {
      assert line[..|RESERVED|] == end[..|RESERVED|];
    }
  }

  lemma TailShorter(lines: seq<string>, end: string, s: Section, n: nat)
    requires lines != [] && s.values != [] && n > 0
    ensures Tail(lines, end, s, n)
            <==> s.values[0] == lines[0] && !IsReserved(lines[0])
                 && Tail(lines[1..], end, Section(s.values[1..], s.status), n - 1)
  {
    var rest := Section(s.values[1..], s.status);
    assert s.values == [s.values[0]] + s.values[1..];
    if n <= |lines| && n == |s.values| + 1 {
      assert lines[..n - 1] == [lines[0]] + lines[1..][..n - 2];
      assert lines[1..][n - 2] == lines[n - 1];
    }
  }

  lemma MarkersReserved(k: Marks, name: string)
    ensures IsReserved(k.SectionBegin(name)) && IsReserved(k.SectionEnd(name))
  {
    assert k.SectionBegin(name) == RESERVED + (k.prefix + "_" + name + "_BEGIN:" + k.nonce);
    assert k.SectionEnd(name) == RESERVED + (k.prefix + "_" + name + "_END:" + k.nonce + ":");
  }

  lemma StatusSpells(end: string, digits: string, status: nat)
    ensures Spells(digits, status) <==> StatusIn(end + digits, end) == Some(status)
  {
    assert (end + digits)[|end|..] == digits;
  }

  lemma StatusSpelled(line: string, end: string)
    requires StatusIn(line, end).Some?
    ensures line == end + line[|end|..] && Spells(line[|end|..], StatusIn(line, end).value)
  {}

  /** One section of the grammar is a begin marker and a tail. */
  lemma SectionIsTail(k: Marks, lines: seq<string>, name: string, s: Section, n: nat)
    requires n <= |lines|
    ensures (exists digits :: Spells(digits, s.status) && lines[..n] == SectionLines(k, name, s, digits)
                              && (forall v :: v in s.values ==> !IsReserved(v)))
            <==> n >= 1 && lines[0] == k.SectionBegin(name) && Tail(lines[1..], k.SectionEnd(name), s, n - 1)
  {
    var end := k.SectionEnd(name);
    if exists digits :: Spells(digits, s.status) && lines[..n] == SectionLines(k, name, s, digits)
                        && (forall v :: v in s.values ==> !IsReserved(v)) {
      var digits :| Spells(digits, s.status) && lines[..n] == SectionLines(k, name, s, digits);
      StatusSpells(end, digits, s.status);
      assert lines[..n][1..n - 1] == s.values;
      assert lines[1..][..n - 2] == s.values;
    }
    if n >= 1 && lines[0] == k.SectionBegin(name) && Tail(lines[1..], end, s, n - 1) {
      var last := lines[1..][n - 2];
      StatusSpelled(last, end);
      assert lines[..n] == [lines[0]] + lines[1..][..n - 2] + [last];
      assert lines[..n] == SectionLines(k, name, s, last[|end|..]);
    }
  }

  /** The parser accepts exactly the grammar, and finds exactly its sections. */
  lemma {:induction false} ParserMatchesGrammar(k: Marks, lines: seq<string>, names: seq<string>, found: seq<Section>)
    ensures ScanAll(k, lines, names) == Some(found) <==> Sections(k, lines, names, found)
    decreases |names|
  {
    if names != [] {
      if ScanAll(k, lines, names) == Some(found) {
        ParsedIsGrammatical(k, lines, names, found);
      }
      if Sections(k, lines, names, found) {
        GrammaticalIsParsed(k, lines, names, found);
      }
    }
  }

  lemma {:induction false} ParsedIsGrammatical(k: Marks, lines: seq<string>, names: seq<string>, found: seq<Section>)
    requires names != [] && ScanAll(k, lines, names) == Some(found)
    ensures Sections(k, lines, names, found)
    decreases |names|, 0
  {
    var end := k.SectionEnd(names[0]);
    ScanFindsTail(lines[1..], end);
    var one := Scan(lines[1..], end).value;
    var n := one.1 + 1;
    ParserMatchesGrammar(k, lines[n..], names[1..], found[1..]);
    SectionIsTail(k, lines, names[0], found[0], n);
    assert found[1..] == ScanAll(k, lines[n..], names[1..]).value;
  }

  lemma {:induction false} GrammaticalIsParsed(k: Marks, lines: seq<string>, names: seq<string>, found: seq<Section>)
    requires names != [] && Sections(k, lines, names, found)
    ensures ScanAll(k, lines, names) == Some(found)
    decreases |names|, 0
  {
    var digits, n :| 0 <= n <= |lines| && Spells(digits, found[0].status)
      && lines[..n] == SectionLines(k, names[0], found[0], digits)
      && (forall v :: v in found[0].values ==> !IsReserved(v))
      && Sections(k, lines[n..], names[1..], found[1..]);
    SectionIsTail(k, lines, names[0], found[0], n);
    MarkersReserved(k, names[0]);
    TailIsScanned(lines[1..], k.SectionEnd(names[0]), found[0], n - 1);
    ParserMatchesGrammar(k, lines[n..], names[1..], found[1..]);
    assert [found[0]] + found[1..] == found;
  }

  // ----- the printer -----

  /** The sections of `names` in order, each status in decimal. */
  function PrintedSections(k: Marks, sections: map<string, Section>, names: seq<string>): seq<string>
    requires forall n :: n in names ==> n in sections
  {
    if names == [] then []
    else
      SectionLines(k, names[0], sections[names[0]], Decimal(sections[names[0]].status))
      + PrintedSections(k, sections, names[1..])
  }

  function PrintedLines(k: Marks, sections: map<string, Section>, names: seq<string>): seq<string>
    requires forall n :: n in names ==> n in sections
  {
    [k.Begin()] + PrintedSections(k, sections, names) + [k.End()]
  }

  /** The printer's loop: lines are appended name by name. */
  method SectionsAsFrame(k: Marks, sections: map<string, Section>, names: seq<string>) returns (text: string)
    requires forall n :: n in names ==> n in sections
    ensures text == Joined(PrintedLines(k, sections, names))
  {
    var lines := [k.Begin()];
    var i := 0;
    assert names[0..] == names;
    while i < |names|
      invariant 0 <= i <= |names|
      invariant lines + PrintedSections(k, sections, names[i..]) == [k.Begin()] + PrintedSections(k, sections, names)
    {
      var section := sections[names[i]];
      var more := SectionLines(k, names[i], section, Decimal(section.status));
      assert names[i..][1..] == names[i + 1..];
      assert lines + (more + PrintedSections(k, sections, names[i + 1..])) == lines + more + PrintedSections(k, sections, names[i + 1..]);
      lines := lines + [k.SectionBegin(names[i])];
      lines := lines + section.values;
      lines := lines + [k.SectionEnd(names[i]) + Decimal(section.status)];
      i := i + 1;
    }
    assert names[i..] == [] && lines + [] == lines;
    lines := lines + [k.End()];
    text := Joined(lines);
  }

  // ----- lines and text -----

  predicate AllOneLine(lines: seq<string>) { forall l :: l in lines ==> OneLine(l) }

  lemma {:induction false} SplitLine(line: string, rest: string, cur: string)
    requires OneLine(line)
    ensures SplitOn(line + "\n" + rest, cur) == [cur + line] + SplitOn(rest, "")
    decreases |line|
  {
    var s := line + "\n" + rest;
    if line == "" {
      assert s[0] == '\n' && s[1..] == rest && cur + line == cur;
    } else {
      assert s[0] == line[0] && s[1..] == line[1..] + "\n" + rest;
      assert line[0] in line;
      SplitLine(line[1..], rest, cur + [line[0]]);
      assert cur + [line[0]] + line[1..] == cur + line;
    }
  }

  /** Joining and splitting lines gives them back. */
  lemma {:induction false} SplitJoined(lines: seq<string>)
    requires AllOneLine(lines)
    ensures SplitOn(Joined(lines), "") == lines
    decreases |lines|
  {
    if lines != [] {
      SplitLine(lines[0], Joined(lines[1..]), "");
      SplitJoined(lines[1..]);
      assert "" + lines[0] == lines[0];
      assert Joined(lines) == lines[0] + "\n" + Joined(lines[1..]);
    }
  }

  /** Splitting leaves no line break inside a line. */
  lemma {:induction false} SplitIsOneLine(s: string, cur: string)
    requires OneLine(cur)
    ensures AllOneLine(SplitOn(s, cur))
    decreases |s|
  {
    if s != "" {
      if Breaks(s[0]) {
        SplitIsOneLine(s[1..], "");
      } else {
        SplitIsOneLine(s[1..], cur + [s[0]]);
      }
    }
  }

  lemma {:induction false} FoldingNothing(s: string)
    requires '\r' !in s
    ensures CrLfFolded(s) == s
    decreases |s|
  {
    if s != "" {
      assert s[0] in s;
      FoldingNothing(s[1..]);
    }
  }

  lemma {:induction false} JoinedHasNoReturn(lines: seq<string>)
    requires AllOneLine(lines)
    ensures '\r' !in Joined(lines)
    ensures lines != [] ==> Joined(lines) != "" && Joined(lines)[|Joined(lines)| - 1..] == "\n"
    decreases |lines|
  {
    if lines != [] {
      JoinedHasNoReturn(lines[1..]);
      assert lines[0] in lines && Breaks('\r');
    }
  }

  /** A printed text within the limit is read back as the lines it was printed from. */
  lemma DecodesJoined(lines: seq<string>)
    requires lines != [] && AllOneLine(lines) && Utf8Size(Joined(lines)) <= MAX_SHELL_RESPONSE_BYTES
    ensures DecodeLines(Text(Joined(lines))) == Some(lines)
  {
    JoinedHasNoReturn(lines);
    FoldingNothing(Joined(lines));
    SplitJoined(lines);
  }

  // ----- decimal numbers -----

  lemma {:induction false} DecimalSpells(n: nat)
    ensures Digits(Decimal(n)) && Decimal(n) != "" && DigitsValue(Decimal(n)) == n
    ensures n <= 999 ==> |Decimal(n)| <= 3
    ensures n > 999 ==> |Decimal(n)| > 3
    decreases n
  {
    if n < 10 {
      assert Decimal(n)[..0] == "";
    } else {
      DecimalSpells(n / 10);
      var d := Decimal(n);
      assert d[..|d| - 1] == Decimal(n / 10);
      DecimalLength(n / 10);
    }
  }

  lemma DecimalLength(n: nat)
    ensures n < 10 ==> |Decimal(n)| == 1
    ensures 10 <= n < 100 ==> |Decimal(n)| == 2
    ensures 100 <= n ==> |Decimal(n)| >= 3
    ensures 100 <= n < 1000 ==> |Decimal(n)| == 3
    decreases n
  {
    if n >= 10 {
      DecimalLength(n / 10);
    }
  }

  // ----- print, then parse -----

  function Select(sections: map<string, Section>, names: seq<string>): map<string, Section>
    requires forall n :: n in names ==> n in sections
  {
    map n | n in names :: sections[n]
  }

  function Picked(sections: map<string, Section>, names: seq<string>): (found: seq<Section>)
    requires forall n :: n in names ==> n in sections
    ensures |found| == |names|
  {
    if names == [] then [] else [sections[names[0]]] + Picked(sections, names[1..])
  }

  lemma {:induction false} PickedAt(sections: map<string, Section>, names: seq<string>, i: nat)
    requires (forall n :: n in names ==> n in sections) && i < |names|
    ensures Picked(sections, names)[i] == sections[names[i]]
    decreases i
  {
    if i > 0 {
      assert forall n :: n in names[1..] ==> n in names;
      PickedAt(sections, names[1..], i - 1);
    }
  }

  /** Naming what was picked is selecting. */
  lemma {:induction false} NamedPicked(sections: map<string, Section>, names: seq<string>, found: seq<Section>)
    requires (forall n :: n in names ==> n in sections) && |found| == |names|
    requires forall i :: 0 <= i < |names| ==> found[i] == sections[names[i]]
    ensures Named(names, found) == Select(sections, names)
    decreases |names|
  {
    if names != [] {
      var last := |names| - 1;
      assert forall n :: n in names[..last] ==> n in names;
      NamedPicked(sections, names[..last], found[..last]);
      assert names == names[..last] + [names[last]];
      assert forall n :: n in names <==> n in names[..last] || n == names[last];
    }
  }

  /** Printed sections are grammatical exactly as printed. */
  lemma {:induction false} PrintedIsGrammatical(k: Marks, sections: map<string, Section>, names: seq<string>)
    requires forall n :: n in names ==> n in sections && sections[n].status <= 999
    requires forall n, v :: n in names && v in sections[n].values ==> !IsReserved(v)
    ensures Sections(k, PrintedSections(k, sections, names), names, Picked(sections, names))
    decreases |names|
  {
    if names != [] {
      assert names[0] in names;
      var one := sections[names[0]];
      var digits := Decimal(one.status);
      var head := SectionLines(k, names[0], one, digits);
      var lines := PrintedSections(k, sections, names);
      assert forall n :: n in names[1..] ==> n in names;
      PrintedIsGrammatical(k, sections, names[1..]);
      DecimalSpells(one.status);
      assert lines[..|head|] == head && lines[|head|..] == PrintedSections(k, sections, names[1..]);
      var found := Picked(sections, names);
      assert found[1..] == Picked(sections, names[1..]) && found[0] == one;
      assert 0 <= |head| <= |lines| && Spells(digits, found[0].status)
        && lines[..|head|] == SectionLines(k, names[0], found[0], digits)
        && (forall v :: v in found[0].values ==> !IsReserved(v))
        && Sections(k, lines[|head|..], names[1..], found[1..]);
    }
  }

  /** The markers and names of an exchange carry no line break. */
  predicate PlainMarks(k: Marks, names: seq<string>) {
    OneLine(k.prefix) && OneLine(k.nonce) && AllOneLine(names)
  }

  lemma {:induction false} PrintedAreLines(k: Marks, sections: map<string, Section>, names: seq<string>)
    requires PlainMarks(k, names) && (forall n :: n in names ==> n in sections && Clean(sections[n]))
    ensures AllOneLine(PrintedSections(k, sections, names))
    decreases |names|
  {
    if names != [] {
      assert names[0] in names && forall n :: n in names[1..] ==> n in names;
      PrintedAreLines(k, sections, names[1..]);
      DecimalSpells(sections[names[0]].status);
      SectionAreLines(k, names[0], sections[names[0]], Decimal(sections[names[0]].status));
    }
  }

  lemma SectionAreLines(k: Marks, name: string, s: Section, digits: string)
    requires OneLine(k.prefix) && OneLine(k.nonce) && OneLine(name) && Clean(s) && Digits(digits)
    ensures AllOneLine(SectionLines(k, name, s, digits))
  {
    DigitsAreLines(digits);
    assert OneLine(k.SectionBegin(name)) && OneLine(k.SectionEnd(name) + digits);
  }

  lemma DigitsAreLines(digits: string)
    requires Digits(digits)
    ensures OneLine(digits)
  {}

  /** What can be printed and read back: clean sections, statuses of at most three digits,
      within the size limit. */
  predicate Printable(k: Marks, sections: map<string, Section>, names: seq<string>)
    requires forall n :: n in names ==> n in sections
  {
    (forall n :: n in names ==> Clean(sections[n]))
    && Utf8Size(Joined(PrintedLines(k, sections, names))) <= MAX_SHELL_RESPONSE_BYTES
  }

  /** Parsing a printed frame is the identity on the printed sections. */
  lemma PrintThenParse(k: Marks, sections: map<string, Section>, names: seq<string>)
    requires PlainMarks(k, names) && (forall n :: n in names ==> n in sections) && Printable(k, sections, names)
    ensures ParsedBody(k, Text(Joined(PrintedLines(k, sections, names))), names) == Some(Select(sections, names))
  {
    var lines := PrintedLines(k, sections, names);
    var inner := PrintedSections(k, sections, names);
    PrintedAreLines(k, sections, names);
    MarksAreLines(k);
    DecodesJoined(lines);
    assert lines[1..|lines| - 1] == inner;
    PrintedIsGrammatical(k, sections, names);
    ParserMatchesGrammar(k, inner, names, Picked(sections, names));
    forall i | 0 <= i < |names| ensures Picked(sections, names)[i] == sections[names[i]] {
      PickedAt(sections, names, i);
    }
    NamedPicked(sections, names, Picked(sections, names));
  }

  lemma MarksAreLines(k: Marks)
    requires OneLine(k.prefix) && OneLine(k.nonce)
    ensures OneLine(k.Begin()) && OneLine(k.End())
  {}

  // ----- and only then -----

  /** Whatever the parser accepts, its sections are clean. */
  lemma {:induction false} FoundAreClean(k: Marks, lines: seq<string>, names: seq<string>)
    requires AllOneLine(lines) && ScanAll(k, lines, names).Some?
    ensures forall s :: s in ScanAll(k, lines, names).value ==> Clean(s)
    decreases |names|
  {
    if names != [] {
      var end := k.SectionEnd(names[0]);
      ScanFindsTail(lines[1..], end);
      var one := Scan(lines[1..], end).value;
      TailIsClean(lines[1..], end, one.0, one.1);
      assert forall l :: l in lines[one.1 + 1..] ==> l in lines;
      FoundAreClean(k, lines[one.1 + 1..], names[1..]);
    }
  }

  lemma TailIsClean(lines: seq<string>, end: string, s: Section, n: nat)
    requires AllOneLine(lines) && Tail(lines, end, s, n)
    ensures Clean(s)
  {
    assert forall v :: v in s.values ==> v in lines[..n - 1] && v in lines;
    StatusSpelled(lines[n - 1], end);
    ThreeDigits(lines[n - 1][|end|..]);
  }

  lemma ThreeDigits(digits: string)
    requires Digits(digits) && |digits| <= 3
    ensures DigitsValue(digits) <= 999
  {
    if digits != "" {
      var a := digits[..|digits| - 1];
      if a != "" {
        assert a[..|a| - 1] == "" || |a[..|a| - 1]| == 1;
        assert |a| == 2 ==> a[..1][..0] == "";
      }
    }
  }

  lemma {:induction false} NamedAreFound(names: seq<string>, found: seq<Section>, n: string)
    requires |found| == |names| && n in Named(names, found)
    ensures n in names && Named(names, found)[n] in found
    decreases |names|
  {
    if names != [] && n != names[|names| - 1] {
      NamedAreFound(names[..|names| - 1], found[..|found| - 1], n);
    }
  }

  lemma ParsedIsClean(k: Marks, body: Body, names: seq<string>)
    requires ParsedBody(k, body, names).Some?
    ensures forall n :: n in ParsedBody(k, body, names).value ==> Clean(ParsedBody(k, body, names).value[n])
  {
    var lines := DecodeLines(body).value;
    SplitIsOneLine(CrLfFolded(body.text), "");
    var inner := lines[1..|lines| - 1];
    assert AllOneLine(inner);
    FoundAreClean(k, inner, names);
    var found := ScanAll(k, inner, names).value;
    forall n | n in Named(names, found) ensures Clean(Named(names, found)[n]) {
      NamedAreFound(names, found, n);
    }
  }

  /** The round trip holds exactly for what is printable. */
  lemma PrintThenParseIff(k: Marks, sections: map<string, Section>, names: seq<string>)
    requires PlainMarks(k, names) && (forall n :: n in names ==> n in sections)
    ensures ParsedBody(k, Text(Joined(PrintedLines(k, sections, names))), names) == Some(Select(sections, names))
            <==> Printable(k, sections, names)
  {
    var body := Text(Joined(PrintedLines(k, sections, names)));
    if ParsedBody(k, body, names) == Some(Select(sections, names)) {
      ParsedIsClean(k, body, names);
      forall n | n in names ensures Clean(sections[n]) {
        assert n in Select(sections, names);
      }
    }
    if Printable(k, sections, names) {
      PrintThenParse(k, sections, names);
    }
  }

  // ----- sizes -----

  function LinesSize(lines: seq<string>): nat {
    if lines == [] then 0 else Utf8Size(lines[0]) + 1 + LinesSize(lines[1..])
  }

  lemma {:induction false} SizeOfConcat(a: string, b: string)
    ensures Utf8Size(a + b) == Utf8Size(a) + Utf8Size(b)
    decreases |a|
  {
    if a == "" {
      assert a + b == b;
    } else {
      SizeOfConcat(a[1..], b);
      assert (a + b)[1..] == a[1..] + b;
    }
  }

  lemma {:induction false} LinesSizeOfConcat(a: seq<string>, b: seq<string>)
    ensures LinesSize(a + b) == LinesSize(a) + LinesSize(b)
    decreases |a|
  {
    if a == [] {
      assert a + b == b;
    } else {
      LinesSizeOfConcat(a[1..], b);
      assert (a + b)[1..] == a[1..] + b;
    }
  }

  lemma {:induction false} SizeOfJoined(lines: seq<string>)
    ensures Utf8Size(Joined(lines)) == LinesSize(lines)
    decreases |lines|
  {
    if lines != [] {
      SizeOfJoined(lines[1..]);
      SizeOfConcat(lines[0] + "\n", Joined(lines[1..]));
      SizeOfConcat(lines[0], "\n");
      assert Utf8Size("\n") == 1;
    }
  }

  lemma {:induction false} SizeOfFolded(s: string)
    ensures Utf8Size(CrLfFolded(s)) <= Utf8Size(s)
    decreases |s|
  {
    if s != "" {
      if |s| >= 2 && s[0] == '\r' && s[1] == '\n' {
        SizeOfFolded(s[2..]);
        SizeOfConcat("\n", CrLfFolded(s[2..]));
        assert s[1..][1..] == s[2..];
      } else {
        SizeOfFolded(s[1..]);
        SizeOfConcat([s[0]], CrLfFolded(s[1..]));
        assert Utf8Size([s[0]]) == Utf8Width(s[0]);
      }
    }
  }

  /** Each line break is at least one byte, so the lines weigh no more than the text. */
  lemma {:induction false} SizeOfSplit(s: string, cur: string)
    requires if s == "" then cur == "" else Breaks(s[|s| - 1])
    ensures LinesSize(SplitOn(s, cur)) <= Utf8Size(cur) + Utf8Size(s)
    decreases |s|
  {
    if s != "" {
      assert |s| > 1 ==> s[1..][|s[1..]| - 1] == s[|s| - 1];
      if Breaks(s[0]) {
        SizeOfSplit(s[1..], "");
        LinesSizeOfConcat([cur], SplitOn(s[1..], ""));
        assert LinesSize([cur]) == Utf8Size(cur) + 1;
      } else {
        SizeOfSplit(s[1..], cur + [s[0]]);
        SizeOfConcat(cur, [s[0]]);
        assert Utf8Size([s[0]]) == Utf8Width(s[0]);
      }
    }
  }

  lemma SizeOfDecoded(body: Body)
    requires DecodeLines(body).Some?
    ensures LinesSize(DecodeLines(body).value) <= MAX_SHELL_RESPONSE_BYTES
  {
    var text := CrLfFolded(body.text);
    SizeOfFolded(body.text);
    assert text[|text| - 1..] == "\n";
    assert text != "" && text[|text| - 1] == text[|text| - 1..][0];
    SizeOfSplit(text, "");
  }

  lemma {:induction false} SizeOfDigits(digits: string)
    requires Digits(digits)
    ensures Utf8Size(digits) == |digits|
    decreases |digits|
  {
    if digits != "" {
      SizeOfDigits(digits[1..]);
    }
  }

  /** The decimal spelling is the shortest. */
  lemma DecimalIsShortest(digits: string, status: nat)
    requires Spells(digits, status)
    ensures |Decimal(status)| <= |digits|
  {
    DecimalLength(status);
    ThreeDigits(digits);
    if |digits| == 1 {
      OneDigit(digits);
    } else if |digits| == 2 {
      OneDigit(digits[..1]);
    }
  }

  lemma OneDigit(digits: string)
    requires Digits(digits) && |digits| == 1
    ensures DigitsValue(digits) <= 9
  {
    assert digits[..0] == "";
  }

  /** What printing one section costs. */
  function SectionSize(k: Marks, name: string, s: Section): nat {
    LinesSize(SectionLines(k, name, s, Decimal(s.status)))
  }

  lemma SectionShrinks(k: Marks, name: string, s: Section, digits: string)
    requires Spells(digits, s.status)
    ensures SectionSize(k, name, s) <= LinesSize(SectionLines(k, name, s, digits))
  {
    var head, end := [k.SectionBegin(name)] + s.values, k.SectionEnd(name);
    var d := Decimal(s.status);
    DecimalSpells(s.status);
    DecimalIsShortest(digits, s.status);
    SizeOfDigits(digits);
    SizeOfDigits(d);
    SizeOfConcat(end, digits);
    SizeOfConcat(end, d);
    LinesSizeOfConcat(head, [end + digits]);
    LinesSizeOfConcat(head, [end + d]);
    assert LinesSize([end + digits]) == Utf8Size(end + digits) + 1;
    assert LinesSize([end + d]) == Utf8Size(end + d) + 1;
  }

  function TotalSize(k: Marks, sections: map<string, Section>, names: seq<string>): nat
    requires forall n :: n in names ==> n in sections
  {
    if names == [] then 0 else SectionSize(k, names[0], sections[names[0]]) + TotalSize(k, sections, names[1..])
  }

  lemma {:induction false} PrintedSize(k: Marks, sections: map<string, Section>, names: seq<string>)
    requires forall n :: n in names ==> n in sections
    ensures LinesSize(PrintedSections(k, sections, names)) == TotalSize(k, sections, names)
    decreases |names|
  {
    if names != [] {
      assert forall n :: n in names[1..] ==> n in names;
      PrintedSize(k, sections, names[1..]);
      var one := sections[names[0]];
      LinesSizeOfConcat(SectionLines(k, names[0], one, Decimal(one.status)), PrintedSections(k, sections, names[1..]));
    }
  }

  predicate Distinct(names: seq<string>) {
    forall i, j :: 0 <= i < j < |names| ==> names[i] != names[j]
  }

  /** Reprinting everything found costs no more than the lines it was found in. */
  lemma {:induction false} FoundSize(k: Marks, lines: seq<string>, names: seq<string>, sections: map<string, Section>)
    requires ScanAll(k, lines, names).Some? && (forall n :: n in names ==> n in sections)
    requires forall i :: 0 <= i < |names| ==> sections[names[i]] == ScanAll(k, lines, names).value[i]
    ensures TotalSize(k, sections, names) <= LinesSize(lines)
    decreases |names|
  {
    if names != [] {
      var one := Scan(lines[1..], k.SectionEnd(names[0])).value;
      var n := one.1 + 1;
      ScanFindsTail(lines[1..], k.SectionEnd(names[0]));
      SectionIsTail(k, lines, names[0], one.0, n);
      var digits :| Spells(digits, one.0.status) && lines[..n] == SectionLines(k, names[0], one.0, digits);
      SectionShrinks(k, names[0], one.0, digits);
      assert lines == lines[..n] + lines[n..];
      LinesSizeOfConcat(lines[..n], lines[n..]);
      assert forall m :: m in names[1..] ==> m in names;
      var rest := ScanAll(k, lines[n..], names[1..]).value;
      assert ScanAll(k, lines, names).value == [one.0] + rest;
      forall i | 0 <= i < |names[1..]| ensures sections[names[1..][i]] == rest[i] {
        assert sections[names[i + 1]] == ([one.0] + rest)[i + 1];
      }
      FoundSize(k, lines[n..], names[1..], sections);
    }
  }

  lemma {:induction false} TotalWithout(k: Marks, sections: map<string, Section>, names: seq<string>, j: nat)
    requires (forall n :: n in names ==> n in sections) && j < |names|
    requires forall n :: n in names[..j] + names[j + 1..] ==> n in sections
    ensures TotalSize(k, sections, names)
            == SectionSize(k, names[j], sections[names[j]]) + TotalSize(k, sections, names[..j] + names[j + 1..])
    decreases j
  {
    var rest := names[..j] + names[j + 1..];
    if j == 0 {
      assert rest == names[1..];
    } else {
      assert forall n :: n in names[1..] ==> n in names;
      assert rest[0] == names[0] && rest[1..] == names[1..][..j - 1] + names[1..][j..];
      assert forall n :: n in rest[1..] ==> n in rest;
      TotalWithout(k, sections, names[1..], j - 1);
    }
  }

  /** Distinct names drawn from `names` cost no more than all of them. */
  lemma {:induction false} SelectionIsSmaller(k: Marks, sections: map<string, Section>, names: seq<string>,
                                              sel: seq<string>)
    requires (forall n :: n in names ==> n in sections) && (forall n :: n in sel ==> n in names) && Distinct(sel)
    ensures TotalSize(k, sections, sel) <= TotalSize(k, sections, names)
    decreases |sel|
  {
    if sel != [] {
      assert sel[0] in sel;
      var j :| 0 <= j < |names| && names[j] == sel[0];
      var rest := names[..j] + names[j + 1..];
      assert forall n :: n in rest ==> n in names;
      TotalWithout(k, sections, names, j);
      forall n | n in sel[1..] ensures n in rest {
        var i :| 0 <= i < |sel[1..]| && sel[1..][i] == n;
        assert sel[i + 1] == n && n in sel && n != sel[0];
        var m :| 0 <= m < |names| && names[m] == n;
        assert m != j;
        assert if m < j then rest[m] == n else rest[m - 1] == n;
      }
      SelectionIsSmaller(k, sections, rest, sel[1..]);
    }
  }

  // ----- parse, reprint, parse again -----

  lemma {:induction false} NamedAt(names: seq<string>, found: seq<Section>, i: nat)
    requires |found| == |names| && Distinct(names) && i < |names|
    ensures names[i] in Named(names, found) && Named(names, found)[names[i]] == found[i]
    decreases |names|
  {
    var last := |names| - 1;
    if i < last {
      NamedAt(names[..last], found[..last], i);
    }
  }

  lemma ReprintFits(k: Marks, body: Body, names: seq<string>, sel: seq<string>)
    requires ParsedBody(k, body, names).Some? && Distinct(names) && Distinct(sel)
    requires forall n :: n in sel ==> n in names
    ensures var sections := ParsedBody(k, body, names).value;
      && (forall n :: n in sel ==> n in sections)
      && Utf8Size(Joined(PrintedLines(k, sections, sel))) <= MAX_SHELL_RESPONSE_BYTES
  {
    var lines, sections := DecodeLines(body).value, ParsedBody(k, body, names).value;
    var inner := lines[1..|lines| - 1];
    var found := ScanAll(k, inner, names).value;
    forall i | 0 <= i < |names| ensures names[i] in sections && sections[names[i]] == found[i] {
      NamedAt(names, found, i);
    }
    FoundSize(k, inner, names, sections);
    SelectionIsSmaller(k, sections, names, sel);
    PrintedSize(k, sections, sel);
    SizeOfDecoded(body);
    assert lines == [k.Begin()] + inner + [k.End()];
    FrameSize(k, inner);
    FrameSize(k, PrintedSections(k, sections, sel));
    SizeOfJoined(PrintedLines(k, sections, sel));
  }

  lemma FrameSize(k: Marks, inner: seq<string>)
    ensures LinesSize([k.Begin()] + inner + [k.End()]) == LinesSize([k.Begin()]) + LinesSize(inner) + LinesSize([k.End()])
  {
    LinesSizeOfConcat([k.Begin()], inner);
    LinesSizeOfConcat([k.Begin()] + inner, [k.End()]);
  }

  /** Reprinting any selection of what was parsed, and parsing that, gives the selection:
      the preflight parser may hand its identity sections to the identity parser. */
  lemma ParseReprintParse(k: Marks, body: Body, names: seq<string>, sel: seq<string>)
    requires ParsedBody(k, body, names).Some? && PlainMarks(k, names) && Distinct(names) && Distinct(sel)
    requires forall n :: n in sel ==> n in names
    ensures var sections := ParsedBody(k, body, names).value;
      && (forall n :: n in sel ==> n in sections)
      && ParsedBody(k, Text(Joined(PrintedLines(k, sections, sel))), sel) == Some(Select(sections, sel))
  {
    var sections := ParsedBody(k, body, names).value;
    ReprintFits(k, body, names, sel);
    ParsedIsClean(k, body, names);
    PrintThenParse(k, sections, sel);
  }
}
