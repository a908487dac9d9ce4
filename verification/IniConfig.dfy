/** The INI configuration: a two-level map of sections and keys, saved as text and loaded back. The
    ranks that order sections and keys in the file are parameters: nothing here depends on them. */
module IniConfig {
  import opened Bytes
  import opened Options
  import opened OrderedMap
  import opened Sequences
  import opened Texts

  type Items = Map<text, text>
  type Data = Map<text, Items>

  const NEWLINE: octet := 0x0A
  const EQUALS: octet := 0x3D
  const OPEN: octet := 0x5B
  const CLOSE: octet := 0x5D

  // ----- one line -----

  datatype Line = Skipped | Section(name: text) | Setting(key: text, value: text)

  /** The place of the first equals sign, or the length of a line without one. */
  function FirstEquals(s: text): (n: nat)
    ensures n <= |s| && (n < |s| ==> s[n] == EQUALS) && forall i :: 0 <= i < n ==> s[i] != EQUALS
    decreases |s|
  {
    if s == [] || s[0] == EQUALS then 0 else 1 + FirstEquals(s[1..])
  }

  /** A byte order mark. */
  predicate Marked(s: text)
  {
    |s| >= 3 && s[0] == 0xEF && s[1] == 0xBB && s[2] == 0xBF
  }

  function Unmarked(s: text): text
  {
    if Marked(s) then Trim(s[3..]) else s
  }

  predicate Comment(s: text)
  {
    s != [] && (s[0] == 0x23 || s[0] == 0x3B)
  }

  predicate Bracketed(s: text)
  {
    s != [] && s[0] == OPEN && s[|s| - 1] == CLOSE
  }

  function ParseTrimmed(s: text): Line
  {
    if s == [] || Comment(s) then Skipped
    else if Bracketed(s) then Section(Trim(s[1..|s| - 1]))
    else if FirstEquals(s) == |s| then Skipped
    else Setting(Trim(s[..FirstEquals(s)]), Trim(s[FirstEquals(s) + 1..]))
  }

  function Parse(line: text): Line
  {
    ParseTrimmed(Unmarked(Trim(line)))
  }

  /** What a line comes to, by what is written in it: lines that begin with # or ; and lines without =
      are passed over, [name] begins a section, and any other is split at its first =, with white space
      around names and values dropped. */
  lemma {:induction false} LinesByForm(s: text, left: text, right: text)
    requires Trimmed(s) && !(|s| >= 3 && s[..3] == [0xEF, 0xBB, 0xBF])
    ensures s == [] || s[0] == 0x23 || s[0] == 0x3B ==> Parse(s) == Skipped
    ensures s == [0x5B] + left + [0x5D] ==> Parse(s) == Section(Trim(left))
    ensures s != [] && s[0] != 0x5B && 0x3D !in s ==> Parse(s) == Skipped
    ensures
      (s == left + [0x3D] + right && 0x3D !in left && s[0] != 0x23 && s[0] != 0x3B && !(s[0] == 0x5B && s[|s| - 1] == 0x5D))
      ==> Parse(s) == Setting(Trim(left), Trim(right))
  {
    TrimTrims(s);
    assert |s| >= 3 ==> s[..3] == [s[0], s[1], s[2]];
    if s == [0x5B] + left + [0x5D] { assert s[1..|s| - 1] == left; }
    if s == left + [0x3D] + right && 0x3D !in left && !Comment(s) && !Bracketed(s) { SplitAt(s, left, right); }
  }

  /** A byte order mark in front of a line does not count. */
  lemma MarkIgnored(s: text)
    requires s != [] && Trimmed(s) && !Marked(s)
    ensures Parse([0xEF, 0xBB, 0xBF] + s) == Parse(s)
  {
    var marked := [0xEF, 0xBB, 0xBF] + s;
    assert Trimmed(marked) && marked[3..] == s;
    TrimTrims(marked);
    TrimTrims(s);
  }

  // ----- which settings survive -----

  /** " = " */
  const ASSIGN: text := [0x20, 0x3D, 0x20]

  function SettingLine(key: text, value: text): text
  {
    key + ASSIGN + value
  }

  function SectionLine(name: text): text
  {
    [OPEN] + name + [CLOSE]
  }

  /** What a caller has to see to: nothing to trim, no equals sign in the key, and a line that does not
      look like a comment, like a section or like the start of a marked file. */
  predicate Survives(key: text, value: text)
  {
    && Trimmed(key) && Trimmed(value) && EQUALS !in key
    && !Comment(key) && !Marked(key)
    && !(key != [] && value != [] && key[0] == OPEN && value[|value| - 1] == CLOSE)
  }

  predicate Plain(s: text)
  {
    NEWLINE !in s
  }

  lemma {:induction false} FirstEqualsAt(key: text, more: text)
    requires EQUALS !in key
    ensures FirstEquals(key + [EQUALS] + more) == |key|
  {
    var s := key + [EQUALS] + more;
    var n := FirstEquals(s);
    assert s[|key|] == EQUALS;
    assert forall i :: 0 <= i < |key| ==> s[i] == key[i] && key[i] in key;
  }

  /** The trimmed form of a setting's line. */
  function Bare(key: text, value: text): text
  {
    if key == [] && value == [] then [EQUALS]
    else if key == [] then [EQUALS] + [0x20] + value
    else if value == [] then key + [0x20] + [EQUALS]
    else key + ASSIGN + value
  }

  lemma BareIsTrim(key: text, value: text)
    requires Trimmed(key) && Trimmed(value)
    ensures Trim(SettingLine(key, value)) == Bare(key, value)
  {
    var left, right := if key == [] then [0x20] else [], if value == [] then [0x20] else [];
    PaddedLine(key, value, left, right);
    BareIsTrimmed(key, value);
    TrimPadded(left, Bare(key, value), right);
  }

  lemma PaddedLine(key: text, value: text, left: text, right: text)
    requires left == (if key == [] then [0x20] else []) && right == (if value == [] then [0x20] else [])
    ensures SettingLine(key, value) == left + Bare(key, value) + right
  {
    if key == [] && value == [] {
      assert ASSIGN == left + [EQUALS] + right;
    } else if key == [] {
      assert ASSIGN == left + ([EQUALS] + [0x20]);
    } else if value == [] {
      assert ASSIGN == [0x20] + [EQUALS] + right;
    }
  }

  lemma BareIsTrimmed(key: text, value: text)
    requires Trimmed(key) && Trimmed(value)
    ensures Trimmed(Bare(key, value))
  {}

  lemma {:induction false} SplitAt(s: text, left: text, right: text)
    requires s == left + [EQUALS] + right && EQUALS !in left && !Comment(s) && !Bracketed(s)
    ensures ParseTrimmed(s) == Setting(Trim(left), Trim(right))
  {
    FirstEqualsAt(left, right);
    assert s[..|left|] == left && s[|left| + 1..] == right;
  }

  lemma {:induction false} SurvivorParses(key: text, value: text)
    requires Survives(key, value)
    ensures Parse(SettingLine(key, value)) == Setting(key, value)
  {
    BareIsTrim(key, value);
    var left := if key == [] then [] else key + [0x20];
    var right := if value == [] then [] else [0x20] + value;
    BlankAround(key);
    BlankAround(value);
    Plainly(key, value);
    SplitAt(Bare(key, value), left, right);
  }

  lemma Plainly(key: text, value: text)
    requires Survives(key, value)
    ensures var s := Bare(key, value); !Marked(s) && !Comment(s) && !Bracketed(s)
  {}

  lemma BlankAround(s: text)
    requires Trimmed(s)
    ensures Trim(s + [0x20]) == s && Trim([0x20] + s) == s && Trim(s) == s && Trim([]) == []
  {
    TrimTrims(s);
    TrimTrims([]);
    TrimPadded([], s, [0x20]);
    TrimPadded([0x20], s, []);
    assert [] + s + [0x20] == s + [0x20] && [0x20] + s + [] == [0x20] + s;
  }

  /** The key a line yields is no longer than what stands before its first equals sign. */
  lemma {:induction false} KeyIsShort(s: text, f: nat)
    requires ParseTrimmed(s).Setting? && FirstEquals(s) <= f
    ensures |ParseTrimmed(s).key| <= f
  {
    TrimShortens(s[..FirstEquals(s)]);
  }

  lemma {:induction false} EqualsWithin(s: text, i: nat)
    requires i < |s| && s[i] == EQUALS
    ensures FirstEquals(s) <= i
  {}

  lemma {:induction false} MarkedIsLost(key: text, value: text)
    requires Trimmed(key) && Trimmed(value) && Marked(key)
    ensures Parse(SettingLine(key, value)) != Setting(key, value)
  {
    BareIsTrim(key, value);
    var bare := Bare(key, value);
    var rest := bare[3..];
    assert Marked(bare) && rest[|key| - 2] == EQUALS;
    TrimKeeps(rest, |key| - 2);
    var j :| 0 <= j <= |key| - 2 && j < |Trim(rest)| && Trim(rest)[j] == rest[|key| - 2];
    EqualsWithin(Trim(rest), j);
    if ParseTrimmed(Trim(rest)).Setting? { KeyIsShort(Trim(rest), |key| - 2); }
  }

  lemma {:induction false} EqualsIsLost(key: text, value: text)
    requires Trimmed(key) && Trimmed(value) && !Marked(key) && EQUALS in key
    ensures Parse(SettingLine(key, value)) != Setting(key, value)
  {
    BareIsTrim(key, value);
    var bare := Bare(key, value);
    var i :| 0 <= i < |key| && key[i] == EQUALS;
    assert bare[i] == EQUALS && Unmarked(bare) == bare;
    EqualsWithin(bare, i);
    if ParseTrimmed(bare).Setting? { KeyIsShort(bare, i); }
  }

  lemma {:induction false} ShapedIsLost(key: text, value: text)
    requires Trimmed(key) && Trimmed(value) && !Marked(key) && EQUALS !in key && !Survives(key, value)
    ensures Parse(SettingLine(key, value)) != Setting(key, value)
  {
    BareIsTrim(key, value);
    var bare := Bare(key, value);
    assert Unmarked(bare) == bare;
    assert Comment(bare) || Bracketed(bare);
  }

  /** A setting's line reads back as that setting exactly when the setting survives. */
  lemma {:induction false} SettingReadsBackIff(key: text, value: text)
    ensures Parse(SettingLine(key, value)) == Setting(key, value) <==> Survives(key, value)
  {
    if Survives(key, value) {
      SurvivorParses(key, value);
    } else if Parse(SettingLine(key, value)) == Setting(key, value) {
      ParsedIsTrimmed(SettingLine(key, value));
      if Marked(key) { MarkedIsLost(key, value); }
      else if EQUALS in key { EqualsIsLost(key, value); }
      else { ShapedIsLost(key, value); }
    }
  }

  lemma {:induction false} ParsedIsTrimmed(line: text)
    requires Parse(line).Setting?
    ensures Trimmed(Parse(line).key) && Trimmed(Parse(line).value)
  {
    var s := Unmarked(Trim(line));
    TrimTrims(s[..FirstEquals(s)]);
    TrimTrims(s[FirstEquals(s) + 1..]);
  }

  /** A section's line reads back as that section exactly when there is nothing to trim in its name. */
  lemma {:induction false} SectionReadsBackIff(name: text)
    ensures Parse(SectionLine(name)) == Section(name) <==> Trimmed(name)
  {
    var line := SectionLine(name);
    assert Trimmed(line) && !Marked(line) && line[1..|line| - 1] == name;
    TrimTrims(line);
    TrimTrims(name);
  }

  lemma EmptyLineSkipped()
    ensures Parse([]) == Skipped
  {
    TrimTrims([]);
  }

  // ----- loading -----

  function PutSetting(less: (text, text) -> bool, data: Data, section: text, key: text, value: text): Data
  {
    Put(less, data, section, Put(less, GetOr(data, section, []), key, value))
  }

  /** The section the reader is in, and what it has read. */
  datatype Reading = Reading(section: text, data: Data)

  function Take(less: (text, text) -> bool, r: Reading, line: text): Reading
  {
    match Parse(line)
    case Skipped => r
    case Section(name) => r.(section := name)
    case Setting(key, value) => r.(data := PutSetting(less, r.data, r.section, key, value))
  }

  function TakeAll(less: (text, text) -> bool, r: Reading, lines: seq<text>): Reading
    decreases |lines|
  {
    if lines == [] then r else TakeAll(less, Take(less, r, lines[0]), lines[1..])
  }

  function FirstNewline(s: text): (n: nat)
    ensures n <= |s| && (n < |s| ==> s[n] == NEWLINE) && forall i :: 0 <= i < n ==> s[i] != NEWLINE
    decreases |s|
  {
    if s == [] || s[0] == NEWLINE then 0 else 1 + FirstNewline(s[1..])
  }

  /** The lines of a file, a last one without a line feed included. */
  function Lines(s: text): seq<text>
    decreases |s|
  {
    if s == [] then []
    else
      var n := FirstNewline(s);
      [s[..n]] + (if n == |s| then [] else Lines(s[n + 1..]))
  }

  function Load(file: text): Data
  {
    TakeAll(Below, Reading([], []), Lines(file)).data
  }

  // ----- saving -----

  function Ended(line: text): text
  {
    line + [NEWLINE]
  }

  /** By rank, and alphabetically within a rank. */
  function ByRank(rank: text -> int): (text, text) -> bool
  {
    (a, b) => rank(a) < rank(b) || (rank(a) == rank(b) && Below(a, b))
  }

  function ItemLine(e: Entry<text, text>): text
  {
    SettingLine(e.key, e.value)
  }

  /** A section's items in file order. */
  function FileItems(itemRank: (text, text) -> int, e: Entry<text, Items>): Items
  {
    Sorted(ByRank(k => itemRank(e.key, k)), e.value)
  }

  function Block(itemRank: (text, text) -> int, e: Entry<text, Items>): seq<text>
  {
    [SectionLine(e.key)] + Mapped(ItemLine, FileItems(itemRank, e))
  }

  function Blocks(itemRank: (text, text) -> int, first: bool, sections: Data): seq<text>
    decreases |sections|
  {
    if sections == [] then []
    else (if first then [] else [[]]) + Block(itemRank, sections[0]) + Blocks(itemRank, false, sections[1..])
  }

  function Save(rank: text -> int, itemRank: (text, text) -> int, data: Data): text
  {
    Joined(Ended, Blocks(itemRank, true, Sorted(ByRank(rank), data)))
  }

  /** A setting as the file has it: key, equals sign between blanks, value, line feed. */
  function SettingOctets(e: Entry<text, text>): text
  {
    e.key + [0x20, 0x3D, 0x20] + e.value + [0x0A]
  }

  lemma {:induction false} JoinedBoth(a: seq<text>, b: seq<text>)
    ensures Joined(Ended, a + b) == Joined(Ended, a) + Joined(Ended, b)
    decreases |a|
  {
    if a == [] {
      assert a + b == b;
    } else {
      assert (a + b)[1..] == a[1..] + b;
      JoinedBoth(a[1..], b);
      Regroup(Ended(a[0]), Joined(Ended, a[1..]), Joined(Ended, b));
    }
  }

  lemma {:induction false} ItemsWritten(items: Items)
    ensures Joined(Ended, Mapped(ItemLine, items)) == Joined(SettingOctets, items)
    decreases |items|
  {
    if items != [] {
      MappedFirst(ItemLine, items);
      ItemsWritten(items[1..]);
    }
  }

  /** A section as the file has it: its name in brackets on a line of its own, then its settings. */
  lemma {:induction false} SectionWritten(itemRank: (text, text) -> int, e: Entry<text, Items>)
    ensures Joined(Ended, Block(itemRank, e))
      == [0x5B] + e.key + [0x5D, 0x0A] + Joined(SettingOctets, FileItems(itemRank, e))
  {
    var header := [SectionLine(e.key)];
    JoinedBoth(header, Mapped(ItemLine, FileItems(itemRank, e)));
    ItemsWritten(FileItems(itemRank, e));
    assert header[1..] == [] && Joined(Ended, header) == Ended(header[0]) + Joined(Ended, header[1..]);
    assert Ended(header[0]) == [0x5B] + e.key + [0x5D, 0x0A];
  }

  /** Sections follow one another with an empty line between. */
  lemma {:induction false} SectionsWritten(itemRank: (text, text) -> int, sections: Data)
    requires sections != []
    ensures Joined(Ended, Blocks(itemRank, true, sections))
      == Joined(Ended, Block(itemRank, sections[0]))
         + if |sections| == 1 then [] else [0x0A] + Joined(Ended, Blocks(itemRank, true, sections[1..]))
  {
    var block, rest := Block(itemRank, sections[0]), Blocks(itemRank, false, sections[1..]);
    assert [] + block + rest == block + rest;
    JoinedBoth(block, rest);
    if |sections| > 1 {
      var more: seq<text> := Blocks(itemRank, true, sections[1..]);
      var gap: seq<text> := [[]];
      BlocksAfterGap(itemRank, sections[1..]);
      assert rest[0] == [] && rest[1..] == more;
      assert Ended([]) == [0x0A];
    }
  }

  lemma BlocksAfterGap(itemRank: (text, text) -> int, sections: Data)
    requires sections != []
    ensures Blocks(itemRank, false, sections) == [[]] + Blocks(itemRank, true, sections)
  {
    var block, rest := Block(itemRank, sections[0]), Blocks(itemRank, false, sections[1..]);
    assert [] + block + rest == block + rest;
    Regroup([[]], block, rest);
  }

  // ----- what can be saved -----

  /** A stored configuration: ordered, and without empty sections. */
  ghost predicate Stored(less: (text, text) -> bool, data: Data)
  {
    && Ascending(less, data)
    && forall i :: 0 <= i < |data| ==> Ascending(less, data[i].value) && data[i].value != []
  }

  predicate GoodItems(items: Items)
  {
    forall i :: 0 <= i < |items| ==>
      Survives(items[i].key, items[i].value) && Plain(items[i].key) && Plain(items[i].value)
  }

  predicate PlainItems(items: Items)
  {
    forall i :: 0 <= i < |items| ==> Plain(items[i].key) && Plain(items[i].value)
  }

  /** Every name and setting survives its line, and none has a line break in it. */
  predicate Savable(data: Data)
  {
    forall i :: 0 <= i < |data| ==> Trimmed(data[i].key) && Plain(data[i].key) && GoodItems(data[i].value)
  }

  function Lookup(data: Data, section: text, key: text): Option<text>
  {
    Get(GetOr(data, section, []), key)
  }

  // ----- lines -----

  /** The lines of a file come back as they were, and so does a last one without a line feed. */
  lemma {:induction false} LinesOfFile(lines: seq<text>, last: text)
    requires Plain(last) && forall i :: 0 <= i < |lines| ==> Plain(lines[i])
    ensures Lines(Joined(Ended, lines) + last) == lines + if last == [] then [] else [last]
    decreases |lines|
  {
    if lines == [] {
      assert Joined(Ended, lines) + last == last;
      LastLine(last);
    } else {
      var end := if last == [] then [] else [last];
      LinesFirst(lines[0], Joined(Ended, lines[1..]) + last);
      LinesOfFile(lines[1..], last);
      Regroup(Ended(lines[0]), Joined(Ended, lines[1..]), last);
      Regroup([lines[0]], lines[1..], end);
      assert [lines[0]] + lines[1..] == lines;
    }
  }

  lemma {:induction false} LastLine(last: text)
    requires Plain(last)
    ensures Lines(last) == if last == [] then [] else [last]
  {
    if last != [] { assert FirstNewline(last) == |last| && last[..|last|] == last; }
  }

  lemma {:induction false} AllEnded(lines: seq<text>)
    requires forall i :: 0 <= i < |lines| ==> Plain(lines[i])
    ensures Lines(Joined(Ended, lines)) == lines
  {
    LinesOfFile(lines, []);
    assert Joined(Ended, lines) + [] == Joined(Ended, lines) && lines + [] == lines;
  }

  lemma {:induction false} LinesFirst(line: text, rest: text)
    requires Plain(line)
    ensures Lines(line + [NEWLINE] + rest) == [line] + Lines(rest)
  {
    var s := line + [NEWLINE] + rest;
    FirstNewlineAt(line, rest);
    assert s[..|line|] == line && s[|line| + 1..] == rest;
  }

  lemma {:induction false} FirstNewlineAt(line: text, rest: text)
    requires Plain(line)
    ensures FirstNewline(line + [NEWLINE] + rest) == |line|
  {
    var s := line + [NEWLINE] + rest;
    assert s[|line|] == NEWLINE && forall i :: 0 <= i < |line| ==> s[i] == line[i] && line[i] in line;
  }

  lemma {:induction false} TakeBoth(less: (text, text) -> bool, r: Reading, a: seq<text>, b: seq<text>)
    ensures TakeAll(less, r, a + b) == TakeAll(less, TakeAll(less, r, a), b)
    decreases |a|
  {
    if a == [] {
      assert a + b == b;
    } else {
      assert (a + b)[1..] == a[1..] + b;
      TakeBoth(less, Take(less, r, a[0]), a[1..], b);
    }
  }

  // ----- reading a block back -----

  function PutItems(less: (text, text) -> bool, data: Data, section: text, items: Items): Data
    decreases |items|
  {
    if items == [] then data
    else PutItems(less, PutSetting(less, data, section, items[0].key, items[0].value), section, items[1..])
  }

  lemma {:induction false} TakeItems(less: (text, text) -> bool, r: Reading, items: Items)
    requires GoodItems(items)
    ensures TakeAll(less, r, Mapped(ItemLine, items)) == Reading(r.section, PutItems(less, r.data, r.section, items))
    decreases |items|
  {
    if items != [] {
      MappedFirst(ItemLine, items);
      SettingReadsBackIff(items[0].key, items[0].value);
      TakeItems(less, r.(data := PutSetting(less, r.data, r.section, items[0].key, items[0].value)), items[1..]);
    }
  }

  function PutSections(less: (text, text) -> bool, itemRank: (text, text) -> int, data: Data, sections: Data): Data
    decreases |sections|
  {
    if sections == [] then data
    else PutSections(less, itemRank, PutItems(less, data, sections[0].key, FileItems(itemRank, sections[0])), sections[1..])
  }

  lemma {:induction false} TakeBlock(less: (text, text) -> bool, itemRank: (text, text) -> int, r: Reading, e: Entry<text, Items>)
    requires Trimmed(e.key) && GoodItems(FileItems(itemRank, e))
    ensures TakeAll(less, r, Block(itemRank, e)) == Reading(e.key, PutItems(less, r.data, e.key, FileItems(itemRank, e)))
  {
    SectionReadsBackIff(e.key);
    var block := Block(itemRank, e);
    assert block[0] == SectionLine(e.key) && block[1..] == Mapped(ItemLine, FileItems(itemRank, e));
    TakeItems(less, r.(section := e.key), FileItems(itemRank, e));
  }

  ghost predicate GoodBlocks(itemRank: (text, text) -> int, sections: Data)
  {
    forall i :: 0 <= i < |sections| ==> Trimmed(sections[i].key) && GoodItems(FileItems(itemRank, sections[i]))
  }

  lemma {:induction false} TakeBlocks(
      less: (text, text) -> bool, itemRank: (text, text) -> int, r: Reading, first: bool, sections: Data)
    requires GoodBlocks(itemRank, sections)
    ensures TakeAll(less, r, Blocks(itemRank, first, sections)).data == PutSections(less, itemRank, r.data, sections)
    decreases |sections|
  {
    if sections != [] {
      var gap: seq<text>, block := if first then [] else [[]], Block(itemRank, sections[0]);
      var rest := Blocks(itemRank, false, sections[1..]);
      EmptyLineSkipped();
      assert TakeAll(less, r, gap) == r by { if !first { assert gap[1..] == []; } }
      TakeBoth(less, r, gap + block, rest);
      TakeBoth(less, r, gap, block);
      TakeBlock(less, itemRank, r, sections[0]);
      TakeBlocks(less, itemRank, TakeAll(less, r, block), false, sections[1..]);
    }
  }

  // ----- what is stored after reading -----

  /** The items of a section, or none. */
  lemma StoredItems(less: (text, text) -> bool, data: Data, section: text)
    requires Stored(less, data)
    ensures Ascending(less, GetOr(data, section, [])) && (Get(data, section).Some? <==> GetOr(data, section, []) != [])
  {
    match Get(data, section)
    case None =>
    case Some(items) =>
      GetIn(less, data, section, items);
      var i :| 0 <= i < |data| && data[i] == Entry(section, items);
  }

  lemma PutNotEmpty(less: (text, text) -> bool, items: Items, key: text, value: text)
    ensures Put(less, items, key, value) != []
  {}

  lemma {:induction false} SettingStored(less: (text, text) -> bool, data: Data, section: text, key: text, value: text)
    requires StrictOrder(less) && Stored(less, data)
    ensures Stored(less, PutSetting(less, data, section, key, value))
  {
    var items := GetOr(data, section, []);
    StoredItems(less, data, section);
    PutKeepsOrder(less, items, key, value);
    PutNotEmpty(less, items, key, value);
    var more := Put(less, items, key, value);
    PutKeepsOrder(less, data, section, more);
    var r := Put(less, data, section, more);
    forall i | 0 <= i < |r| ensures Ascending(less, r[i].value) && r[i].value != [] {
      assert r[i] in r;
      if r[i] != Entry(section, more) { assert r[i] in data; }
    }
  }

  lemma {:induction false} SettingLookup(
      less: (text, text) -> bool, data: Data, section: text, key: text, value: text, s: text, k: text)
    requires StrictOrder(less) && Stored(less, data)
    ensures Lookup(PutSetting(less, data, section, key, value), s, k)
      == if s == section && k == key then Some(value) else Lookup(data, s, k)
  {
    var items := GetOr(data, section, []);
    StoredItems(less, data, section);
    GetPut(less, data, section, Put(less, items, key, value), s);
    GetPut(less, items, key, value, k);
  }

  lemma {:induction false} ItemsStored(
      less: (text, text) -> bool, order: (text, text) -> bool, data: Data, section: text, items: Items, s: text, k: text)
    requires StrictOrder(less) && Stored(less, data) && Ascending(order, items)
    ensures Stored(less, PutItems(less, data, section, items))
    ensures Lookup(PutItems(less, data, section, items), s, k)
      == if s == section && Get(items, k).Some? then Get(items, k) else Lookup(data, s, k)
    decreases |items|
  {
    if items != [] {
      var key, value := items[0].key, items[0].value;
      var next := PutSetting(less, data, section, key, value);
      SettingStored(less, data, section, key, value);
      SettingLookup(less, data, section, key, value, s, k);
      GetAfter(order, items, key);
      ItemsStored(less, order, next, section, items[1..], s, k);
    }
  }

  lemma ByRankIsStrictOrder(rank: text -> int)
    ensures StrictOrder(ByRank(rank))
  {
    var less := ByRank(rank);
    forall a, b ensures !less(a, a) && (less(a, b) || less(b, a) || a == b) { BelowIsTotal(a, b); }
    forall a, b, c | less(a, b) && less(b, c) ensures less(a, c) {
      if rank(a) == rank(b) == rank(c) { BelowIsTransitive(a, b, c); }
    }
  }

  /** Sections go into the file by rank, and alphabetically within a rank; and so do the settings of each
      section. */
  lemma FileInOrder(rank: text -> int, itemRank: (text, text) -> int, data: Data, i: nat, j: nat)
    requires i < j < |Sorted(ByRank(rank), data)|
    ensures var a, b := Sorted(ByRank(rank), data)[i].key, Sorted(ByRank(rank), data)[j].key;
      rank(a) < rank(b) || (rank(a) == rank(b) && Below(a, b))
  {
    ByRankIsStrictOrder(rank);
    SortedIsOrdered(ByRank(rank), data, []);
    assert Goes(ByRank(rank), Sorted(ByRank(rank), data)[i].key, Sorted(ByRank(rank), data)[j].key);
  }

  /** A section's items in file order are its items. */
  lemma ItemsInFile(itemRank: (text, text) -> int, e: Entry<text, Items>, k: text)
    ensures Ascending(ByRank(x => itemRank(e.key, x)), FileItems(itemRank, e)) && Get(FileItems(itemRank, e), k) == Get(e.value, k)
    ensures forall x :: x in FileItems(itemRank, e) ==> x in e.value
  {
    ByRankIsStrictOrder(x => itemRank(e.key, x));
    SortedIsOrdered(ByRank(x => itemRank(e.key, x)), e.value, k);
  }

  lemma {:induction false} SectionsStored(
      less: (text, text) -> bool, itemRank: (text, text) -> int, order: (text, text) -> bool, data: Data, sections: Data, s: text, k: text)
    requires StrictOrder(less) && Stored(less, data) && Ascending(order, sections)
    ensures Stored(less, PutSections(less, itemRank, data, sections))
    ensures Lookup(PutSections(less, itemRank, data, sections), s, k)
      == if Lookup(sections, s, k).Some? then Lookup(sections, s, k) else Lookup(data, s, k)
    decreases |sections|
  {
    if sections != [] {
      var e := sections[0];
      var next := PutItems(less, data, e.key, FileItems(itemRank, e));
      ItemsInFile(itemRank, e, k);
      ItemsStored(less, ByRank(x => itemRank(e.key, x)), data, e.key, FileItems(itemRank, e), s, k);
      GetAfter(order, sections, e.key);
      SectionsStored(less, itemRank, order, next, sections[1..], s, k);
    }
  }

  /** Stored configurations that answer every lookup alike are the same. */
  lemma {:induction false} SameData(less: (text, text) -> bool, m: Data, n: Data)
    requires Stored(less, m) && Stored(less, n) && forall s, k :: Lookup(m, s, k) == Lookup(n, s, k)
    ensures m == n
  {
    forall s ensures Get(m, s) == Get(n, s) {
      StoredItems(less, m, s);
      StoredItems(less, n, s);
      var a, b := GetOr(m, s, []), GetOr(n, s, []);
      forall k ensures Get(a, k) == Get(b, k) { assert Lookup(m, s, k) == Lookup(n, s, k); }
      SameMap(less, a, b);
    }
    SameMap(less, m, n);
  }

  // ----- the round trip -----

  lemma {:induction false} BlocksArePlain(itemRank: (text, text) -> int, first: bool, sections: Data)
    requires forall i :: 0 <= i < |sections| ==> Plain(sections[i].key) && PlainItems(FileItems(itemRank, sections[i]))
    ensures forall i :: 0 <= i < |Blocks(itemRank, first, sections)| ==> Plain(Blocks(itemRank, first, sections)[i])
    decreases |sections|
  {
    if sections != [] {
      var gap: seq<text>, block := if first then [] else [[]], Block(itemRank, sections[0]);
      BlocksArePlain(itemRank, false, sections[1..]);
      var items := FileItems(itemRank, sections[0]);
      forall i | 0 <= i < |items| ensures Plain(Mapped(ItemLine, items)[i]) { MappedAt(ItemLine, items, i); }
      assert forall i :: 0 <= i < |block| ==> Plain(block[i]);
    }
  }

  lemma FileSections(rank: text -> int, itemRank: (text, text) -> int, data: Data, s: text)
    requires Savable(data)
    ensures var sections := Sorted(ByRank(rank), data);
      && Ascending(ByRank(rank), sections) && Get(sections, s) == Get(data, s) && GoodBlocks(itemRank, sections)
      && forall i :: 0 <= i < |sections| ==> Plain(sections[i].key)
  {
    ByRankIsStrictOrder(rank);
    SortedIsOrdered(ByRank(rank), data, s);
    var sections := Sorted(ByRank(rank), data);
    forall i | 0 <= i < |sections|
      ensures Trimmed(sections[i].key) && Plain(sections[i].key) && GoodItems(FileItems(itemRank, sections[i]))
    {
      assert sections[i] in sections && sections[i] in data;
      ItemsInFile(itemRank, sections[i], []);
      GoodSubset(FileItems(itemRank, sections[i]), sections[i].value);
    }
  }

  lemma GoodSubset(part: Items, whole: Items)
    requires GoodItems(whole) && forall x :: x in part ==> x in whole
    ensures GoodItems(part)
  {
    forall i | 0 <= i < |part|
      ensures Survives(part[i].key, part[i].value) && Plain(part[i].key) && Plain(part[i].value)
    {
      assert part[i] in whole;
      var j :| 0 <= j < |whole| && whole[j] == part[i];
    }
  }

  lemma {:induction false} LoadedData(rank: text -> int, itemRank: (text, text) -> int, data: Data)
    requires Savable(data)
    ensures Load(Save(rank, itemRank, data)) == PutSections(Below, itemRank, [], Sorted(ByRank(rank), data))
  {
    var sections := Sorted(ByRank(rank), data);
    FileSections(rank, itemRank, data, []);
    BlocksArePlain(itemRank, true, sections);
    AllEnded(Blocks(itemRank, true, sections));
    TakeBlocks(Below, itemRank, Reading([], []), true, sections);
  }

  /** Loading what was saved returns the very same configuration, whatever the ranks: provided no
      section is empty and every name and setting survives its line. */
  lemma {:induction false} LoadOfSave(rank: text -> int, itemRank: (text, text) -> int, data: Data)
    requires Stored(Below, data) && Savable(data)
    ensures Load(Save(rank, itemRank, data)) == data
  {
    var sections := Sorted(ByRank(rank), data);
    var loaded := Load(Save(rank, itemRank, data));
    LoadedData(rank, itemRank, data);
    BelowIsStrictOrder();
    FileSections(rank, itemRank, data, []);
    SectionsStored(Below, itemRank, ByRank(rank), [], sections, [], []);
    forall s, k ensures Lookup(loaded, s, k) == Lookup(data, s, k) {
      FileSections(rank, itemRank, data, s);
      SectionsStored(Below, itemRank, ByRank(rank), [], sections, s, k);
    }
    SameData(Below, loaded, data);
  }

  lemma {:induction false} ReadingStored(r: Reading, lines: seq<text>)
    requires Stored(Below, r.data)
    ensures Stored(Below, TakeAll(Below, r, lines).data)
    decreases |lines|
  {
    if lines != [] {
      BelowIsStrictOrder();
      match Parse(lines[0]) {
        case Skipped =>
        case Section(_) =>
        case Setting(key, value) => SettingStored(Below, r.data, r.section, key, value);
      }
      ReadingStored(Take(Below, r, lines[0]), lines[1..]);
    }
  }

  /** No file loads into a configuration with an empty section: a section comes into being with its
      first setting. */
  lemma LoadIsStored(file: text)
    ensures Stored(Below, Load(file))
  {
    ReadingStored(Reading([], []), Lines(file));
  }

  // ----- what a saved file cannot bring back -----

  function Cost(e: Entry<text, text>): nat
  {
    |e.key| + |e.value| + 1
  }

  function SectionCost(e: Entry<text, Items>): nat
  {
    Total(Cost, e.value)
  }

  /** What a line brings in. */
  function LineCost(line: text): nat
  {
    match Parse(line) case Setting(k, v) => Cost(Entry(k, v)) case _ => 0
  }

  function LinesCost(lines: seq<text>): nat
    decreases |lines|
  {
    if lines == [] then 0 else LineCost(lines[0]) + LinesCost(lines[1..])
  }

  lemma {:induction false} LinesCostBoth(a: seq<text>, b: seq<text>)
    ensures LinesCost(a + b) == LinesCost(a) + LinesCost(b)
    decreases |a|
  {
    if a == [] {
      assert a + b == b;
    } else {
      assert (a + b)[1..] == a[1..] + b;
      LinesCostBoth(a[1..], b);
    }
  }

  /** Reading lines brings in what they cost at most. */
  lemma {:induction false} TakeAllCost(r: Reading, lines: seq<text>)
    requires Stored(Below, r.data)
    ensures Total(SectionCost, TakeAll(Below, r, lines).data) <= Total(SectionCost, r.data) + LinesCost(lines)
    decreases |lines|
  {
    if lines != [] {
      BelowIsStrictOrder();
      match Parse(lines[0]) {
        case Skipped =>
        case Section(_) =>
        case Setting(key, value) =>
          SettingCost(r.data, r.section, key, value);
          SettingStored(Below, r.data, r.section, key, value);
      }
      TakeAllCost(Take(Below, r, lines[0]), lines[1..]);
    }
  }

  lemma SettingCost(data: Data, section: text, key: text, value: text)
    requires Stored(Below, data)
    ensures Total(SectionCost, PutSetting(Below, data, section, key, value)) <= Total(SectionCost, data) + Cost(Entry(key, value))
  {
    var items := GetOr(data, section, []);
    BelowIsStrictOrder();
    StoredItems(Below, data, section);
    TotalPut(Below, Cost, items, key, value);
    TotalPut(Below, SectionCost, data, section, Put(Below, items, key, value));
  }

  /** What a loaded name or setting looks like. */
  predicate Loadable(key: text, value: text)
  {
    Trimmed(key) && Trimmed(value) && EQUALS !in key && Plain(key) && Plain(value)
  }

  predicate LoadableItems(items: Items)
  {
    forall i :: 0 <= i < |items| ==> Loadable(items[i].key, items[i].value)
  }

  predicate AllLoadable(data: Data)
  {
    forall i :: 0 <= i < |data| ==> Trimmed(data[i].key) && Plain(data[i].key) && LoadableItems(data[i].value)
  }

  lemma {:induction false} ParsedIsLoadable(line: text)
    requires Plain(line)
    ensures match Parse(line)
      case Skipped => true
      case Section(name) => Trimmed(name) && Plain(name)
      case Setting(key, value) => Loadable(key, value)
  {
    TrimWithin(line);
    if Marked(Trim(line)) { TrimWithin(Trim(line)[3..]); }
    var s := Unmarked(Trim(line));
    assert Plain(s);
    match Parse(line)
    case Skipped =>
    case Section(name) =>
      TrimTrims(s[1..|s| - 1]);
      TrimWithin(s[1..|s| - 1]);
    case Setting(key, value) =>
      ParsedIsTrimmed(line);
      TrimWithin(s[..FirstEquals(s)]);
      TrimWithin(s[FirstEquals(s) + 1..]);
  }

  lemma {:induction false} LinesArePlain(s: text)
    ensures forall i :: 0 <= i < |Lines(s)| ==> Plain(Lines(s)[i])
    decreases |s|
  {
    if s != [] && FirstNewline(s) < |s| { LinesArePlain(s[FirstNewline(s) + 1..]); }
  }

  lemma {:induction false} TakenIsLoadable(r: Reading, lines: seq<text>)
    requires AllLoadable(r.data) && Stored(Below, r.data) && Trimmed(r.section) && Plain(r.section)
    requires forall i :: 0 <= i < |lines| ==> Plain(lines[i])
    ensures AllLoadable(TakeAll(Below, r, lines).data)
    decreases |lines|
  {
    if lines != [] {
      BelowIsStrictOrder();
      ParsedIsLoadable(lines[0]);
      match Parse(lines[0]) {
        case Skipped =>
        case Section(_) =>
        case Setting(key, value) =>
          SettingStored(Below, r.data, r.section, key, value);
          SettingLoadable(r.data, r.section, key, value);
      }
      TakenIsLoadable(Take(Below, r, lines[0]), lines[1..]);
    }
  }

  lemma SettingLoadable(data: Data, section: text, key: text, value: text)
    requires AllLoadable(data) && Stored(Below, data) && Trimmed(section) && Plain(section) && Loadable(key, value)
    ensures AllLoadable(PutSetting(Below, data, section, key, value))
  {
    BelowIsStrictOrder();
    StoredItems(Below, data, section);
    var items := GetOr(data, section, []);
    if Get(data, section).Some? {
      GetIn(Below, data, section, items);
      var i :| 0 <= i < |data| && data[i] == Entry(section, items);
    }
    PutKeepsOrder(Below, items, key, value);
    var more := Put(Below, items, key, value);
    forall i | 0 <= i < |more| ensures Loadable(more[i].key, more[i].value) {
      assert more[i] in more;
      if more[i] != Entry(key, value) { assert more[i] in items; }
    }
    PutKeepsOrder(Below, data, section, more);
    var r := Put(Below, data, section, more);
    forall i | 0 <= i < |r| ensures Trimmed(r[i].key) && Plain(r[i].key) && LoadableItems(r[i].value) {
      assert r[i] in r;
      if r[i] != Entry(section, more) { assert r[i] in data; }
    }
  }

  lemma {:induction false} ParsedCost(s: text)
    ensures match ParseTrimmed(s) case Setting(k, v) => Cost(Entry(k, v)) <= |s| case _ => true
  {
    if ParseTrimmed(s).Setting? {
      TrimShortens(s[..FirstEquals(s)]);
      TrimShortens(s[FirstEquals(s) + 1..]);
    }
  }

  /** A setting's line brings in no more than the setting, and less unless it survives. */
  lemma {:induction false} LostCostsLess(key: text, value: text)
    requires Loadable(key, value)
    ensures LineCost(SettingLine(key, value)) <= Cost(Entry(key, value))
    ensures LineCost(SettingLine(key, value)) == Cost(Entry(key, value)) ==> Survives(key, value)
  {
    if Survives(key, value) {
      SurvivorParses(key, value);
    } else if Marked(key) {
      MarkedCostsLess(key, value);
    } else {
      ShapedCostsNothing(key, value);
    }
  }

  lemma {:induction false} MarkedCostsLess(key: text, value: text)
    requires Loadable(key, value) && Marked(key)
    ensures LineCost(SettingLine(key, value)) < Cost(Entry(key, value))
  {
    BareIsTrim(key, value);
    var bare := Bare(key, value);
    assert Marked(bare) && |bare| <= |key| + |value| + 3;
    TrimShortens(bare[3..]);
    ParsedCost(Trim(bare[3..]));
  }

  lemma {:induction false} ShapedCostsNothing(key: text, value: text)
    requires Loadable(key, value) && !Marked(key) && !Survives(key, value)
    ensures LineCost(SettingLine(key, value)) == 0
  {
    BareIsTrim(key, value);
    var bare := Bare(key, value);
    assert Unmarked(bare) == bare;
    assert Comment(bare) || Bracketed(bare);
  }

  lemma {:induction false} ItemLinesCost(items: Items)
    requires LoadableItems(items)
    ensures LinesCost(Mapped(ItemLine, items)) <= Total(Cost, items)
    ensures LinesCost(Mapped(ItemLine, items)) == Total(Cost, items) ==> GoodItems(items)
    decreases |items|
  {
    if items != [] {
      MappedFirst(ItemLine, items);
      LostCostsLess(items[0].key, items[0].value);
      ItemLinesCost(items[1..]);
      assert items[0] == Entry(items[0].key, items[0].value);
    }
  }

  ghost predicate LoadableBlocks(itemRank: (text, text) -> int, sections: Data)
  {
    forall i :: 0 <= i < |sections| ==>
      Trimmed(sections[i].key) && Plain(sections[i].key) && LoadableItems(FileItems(itemRank, sections[i]))
  }

  lemma {:induction false} BlockCost(itemRank: (text, text) -> int, e: Entry<text, Items>)
    requires Trimmed(e.key) && LoadableItems(FileItems(itemRank, e))
    ensures LinesCost(Block(itemRank, e)) <= SectionCost(e)
    ensures LinesCost(Block(itemRank, e)) == SectionCost(e) ==> GoodItems(FileItems(itemRank, e))
  {
    SectionReadsBackIff(e.key);
    assert Block(itemRank, e)[1..] == Mapped(ItemLine, FileItems(itemRank, e));
    ItemLinesCost(FileItems(itemRank, e));
    ByRankIsStrictOrder(k => itemRank(e.key, k));
    TotalSorted(ByRank(k => itemRank(e.key, k)), Cost, e.value);
  }

  lemma {:induction false} BlocksCost(itemRank: (text, text) -> int, first: bool, sections: Data)
    requires LoadableBlocks(itemRank, sections)
    ensures LinesCost(Blocks(itemRank, first, sections)) <= Total(SectionCost, sections)
    ensures LinesCost(Blocks(itemRank, first, sections)) == Total(SectionCost, sections) ==> GoodBlocks(itemRank, sections)
    decreases |sections|
  {
    if sections != [] {
      BlocksSplit(itemRank, first, sections);
      BlockCost(itemRank, sections[0]);
      BlocksCost(itemRank, false, sections[1..]);
    }
  }

  lemma BlocksSplit(itemRank: (text, text) -> int, first: bool, sections: Data)
    requires sections != []
    ensures LinesCost(Blocks(itemRank, first, sections))
      == LinesCost(Block(itemRank, sections[0])) + LinesCost(Blocks(itemRank, false, sections[1..]))
  {
    var gap: seq<text>, block := if first then [] else [[]], Block(itemRank, sections[0]);
    EmptyLineSkipped();
    assert LinesCost(gap) == 0 by { if !first { assert gap[1..] == []; } }
    LinesCostBoth(gap + block, Blocks(itemRank, false, sections[1..]));
    LinesCostBoth(gap, block);
  }

  lemma {:induction false} SavedIsLoadable(rank: text -> int, itemRank: (text, text) -> int, data: Data)
    requires AllLoadable(data)
    ensures LoadableBlocks(itemRank, Sorted(ByRank(rank), data))
  {
    ByRankIsStrictOrder(rank);
    SortedIsOrdered(ByRank(rank), data, []);
    var sections := Sorted(ByRank(rank), data);
    forall i | 0 <= i < |sections|
      ensures Trimmed(sections[i].key) && Plain(sections[i].key) && LoadableItems(FileItems(itemRank, sections[i]))
    {
      assert sections[i] in sections && sections[i] in data;
      ItemsInFile(itemRank, sections[i], []);
      var items := FileItems(itemRank, sections[i]);
      forall j | 0 <= j < |items| ensures Loadable(items[j].key, items[j].value) {
        assert items[j] in items && items[j] in sections[i].value;
      }
    }
  }

  /** Good blocks in file order mean a configuration that can be saved. */
  lemma {:induction false} SavableFromFile(rank: text -> int, itemRank: (text, text) -> int, data: Data)
    requires Stored(Below, data) && AllLoadable(data) && GoodBlocks(itemRank, Sorted(ByRank(rank), data))
    ensures Savable(data)
  {
    var sections := Sorted(ByRank(rank), data);
    forall i | 0 <= i < |data| ensures GoodItems(data[i].value) {
      var e := data[i];
      assert e in data && e == Entry(e.key, e.value);
      GetIn(Below, data, e.key, e.value);
      ByRankIsStrictOrder(rank);
      SortedIsOrdered(ByRank(rank), data, e.key);
      GetIn(ByRank(rank), sections, e.key, e.value);
      assert e in sections;
      forall x | x in e.value ensures x in FileItems(itemRank, e) {
        GetIn(Below, e.value, x.key, x.value);
        ItemsInFile(itemRank, e, x.key);
        GetIn(ByRank(k => itemRank(e.key, k)), FileItems(itemRank, e), x.key, x.value);
      }
      GoodSubset(e.value, FileItems(itemRank, e));
    }
  }

  /** Saving and loading returns the very same configuration exactly when every name and setting
      survives its line: what is lost is never made up for by other lines. */
  lemma {:induction false} RoundTripIff(rank: text -> int, itemRank: (text, text) -> int, data: Data)
    requires Stored(Below, data)
    ensures Load(Save(rank, itemRank, data)) == data <==> Savable(data)
  {
    if Savable(data) {
      LoadOfSave(rank, itemRank, data);
    } else if Load(Save(rank, itemRank, data)) == data {
      var sections := Sorted(ByRank(rank), data);
      LinesArePlain(Save(rank, itemRank, data));
      TakenIsLoadable(Reading([], []), Lines(Save(rank, itemRank, data)));
      SavedIsLoadable(rank, itemRank, data);
      BlocksArePlain(itemRank, true, sections);
      AllEnded(Blocks(itemRank, true, sections));
      TakeAllCost(Reading([], []), Blocks(itemRank, true, sections));
      ByRankIsStrictOrder(rank);
      TotalSorted(ByRank(rank), SectionCost, data);
      BlocksCost(itemRank, true, sections);
      SavableFromFile(rank, itemRank, data);
    }
  }

  // ----- erasing -----

  function EraseKeyFrom(data: Data, section: text, key: text): Data
  {
    match Get(data, section)
    case None => data
    case Some(items) =>
      var left := Remove(items, key);
      if left == [] then Remove(data, section) else Put(Below, data, section, left)
  }

  lemma {:induction false} EraseSectionStored(data: Data, section: text, s: text, k: text)
    requires Stored(Below, data)
    ensures Stored(Below, Remove(data, section))
    ensures Lookup(Remove(data, section), s, k) == if s == section then None else Lookup(data, s, k)
  {
    RemoveKeepsOrder(Below, data, section);
    GetRemove(Below, data, section, s);
    var r := Remove(data, section);
    forall i | 0 <= i < |r| ensures Ascending(Below, r[i].value) && r[i].value != [] { assert r[i] in r && r[i] in data; }
  }

  /** Erasing a key removes that setting and nothing else, and takes the section along with its last
      key. */
  lemma {:induction false} EraseKeyStored(data: Data, section: text, key: text, s: text, k: text)
    requires Stored(Below, data)
    ensures Stored(Below, EraseKeyFrom(data, section, key))
    ensures Lookup(EraseKeyFrom(data, section, key), s, k) == if s == section && k == key then None else Lookup(data, s, k)
  {
    StoredItems(Below, data, section);
    match Get(data, section)
    case None =>
    case Some(items) =>
      var left := Remove(items, key);
      GetRemove(Below, items, key, k);
      RemoveKeepsOrder(Below, items, key);
      if left == [] {
        EraseSectionStored(data, section, s, k);
      } else {
        BelowIsStrictOrder();
        PutKeepsOrder(Below, data, section, left);
        GetPut(Below, data, section, left, s);
        var r := Put(Below, data, section, left);
        forall i | 0 <= i < |r| ensures Ascending(Below, r[i].value) && r[i].value != [] {
          assert r[i] in r;
          if r[i] != Entry(section, left) { assert r[i] in data; }
        }
      }
  }

  // ----- the class -----

  class Config {
    var data: Data

    ghost predicate Valid()
      reads this
    {
      Stored(Below, data)
    }

    constructor ()
      ensures Valid() && data == []
    {
      data := [];
    }

    /** Read a file, if there is one, line by line; what was there before is gone either way. */
    method LoadFile(file: Option<text>) returns (ok: bool)
      modifies this
      ensures Valid() && ok == file.Some?
      ensures data == if ok then Load(file.value) else []
    {
      data := [];
      if file.None? { return false; }
      LoadIsStored(file.value);
      var section: text := [];
      var rest := Lines(file.value);
      ghost var whole := TakeAll(Below, Reading([], []), rest);
      while rest != []
        invariant TakeAll(Below, Reading(section, data), rest) == whole
      {
        var line := Unmarked(Trim(rest[0]));
        rest := rest[1..];
        if line == [] || Comment(line) { continue; }
        if Bracketed(line) {
          section := Trim(line[1..|line| - 1]);
          continue;
        }
        var eq := FirstEquals(line);
        if eq == |line| { continue; }
        data := PutSetting(Below, data, section, Trim(line[..eq]), Trim(line[eq + 1..]));
      }
      ok := true;
    }

    method SetString(section: text, key: text, value: text)
      requires Valid()
      modifies this
      ensures Valid() && data == PutSetting(Below, old(data), section, key, value)
      ensures forall s, k :: Lookup(data, s, k) == if s == section && k == key then Some(value) else Lookup(old(data), s, k)
    {
      BelowIsStrictOrder();
      SettingStored(Below, data, section, key, value);
      forall s, k ensures Lookup(PutSetting(Below, data, section, key, value), s, k)
        == if s == section && k == key then Some(value) else Lookup(data, s, k)
      {
        SettingLookup(Below, data, section, key, value, s, k);
      }
      data := PutSetting(Below, data, section, key, value);
    }

    method EraseKey(section: text, key: text)
      requires Valid()
      modifies this
      ensures Valid()
      ensures forall s, k :: Lookup(data, s, k) == if s == section && k == key then None else Lookup(old(data), s, k)
    {
      forall s, k ensures Stored(Below, EraseKeyFrom(data, section, key))
        && Lookup(EraseKeyFrom(data, section, key), s, k) == if s == section && k == key then None else Lookup(data, s, k)
      {
        EraseKeyStored(data, section, key, s, k);
      }
      EraseKeyStored(data, section, key, [], []);
      var items := GetOr(data, section, []);
      if Get(data, section).None? { return; }
      var left := Remove(items, key);
      data := if left == [] then Remove(data, section) else Put(Below, data, section, left);
    }

    method EraseSection(section: text)
      requires Valid()
      modifies this
      ensures Valid()
      ensures forall s, k :: Lookup(data, s, k) == if s == section then None else Lookup(old(data), s, k)
    {
      forall s, k ensures Stored(Below, Remove(data, section))
        && Lookup(Remove(data, section), s, k) == if s == section then None else Lookup(data, s, k)
      {
        EraseSectionStored(data, section, s, k);
      }
      EraseSectionStored(data, section, [], []);
      data := Remove(data, section);
    }

    /** The file: sections and keys by rank, a blank line between sections. */
    method SaveFile(rank: text -> int, itemRank: (text, text) -> int) returns (file: text)
      requires Valid()
      ensures file == Save(rank, itemRank, data)
      ensures Load(file) == data <==> Savable(data)
    {
      file := [];
      var rest, first := Sorted(ByRank(rank), data), true;
      ghost var whole := Save(rank, itemRank, data);
      while rest != []
        invariant file + Joined(Ended, Blocks(itemRank, first, rest)) == whole
      {
        var block := (if first then [] else [[]]) + Block(itemRank, rest[0]);
        ghost var start := file;
        file := file + Joined(Ended, block);
        BlockWritten(start, file, itemRank, first, rest, block, whole);
        rest, first := rest[1..], false;
      }
      RoundTripIff(rank, itemRank, data);
    }
  }

  lemma {:induction false} BlockWritten(start: text, end: text, itemRank: (text, text) -> int, first: bool, rest: Data,
                                        block: seq<text>, whole: text)
    requires rest != [] && block == (if first then [] else [[]]) + Block(itemRank, rest[0])
    requires start + Joined(Ended, Blocks(itemRank, first, rest)) == whole && end == start + Joined(Ended, block)
    ensures end + Joined(Ended, Blocks(itemRank, false, rest[1..])) == whole
  {
    var more := Blocks(itemRank, false, rest[1..]);
    JoinedBoth(block, more);
    assert Blocks(itemRank, first, rest) == block + more;
  }
}
