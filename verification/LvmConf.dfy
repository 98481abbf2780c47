/**
 Switching lvmlockd on in lvm.conf (firecloud/integration/lvm.go,
 EnableLvmlockd and LockdEnabled). The patterns match whole lines, so both
 work line by line.
 */
module LvmConf {
  import opened Text

  const KEY := "use_lvmlockd"
  const SETTING := "\t" + KEY + " = 1"
  const FRESH_FILE := "global {\n" + SETTING + "\n}\n"

  function SkipBlanks(s: string): string {
    if s != "" && (s[0] == ' ' || s[0] == '\t') then SkipBlanks(s[1..]) else s
  }

  function SkipDigits(s: string): string {
    if s != "" && '0' <= s[0] <= '9' then SkipDigits(s[1..]) else s
  }

  /** `[ \t]*#?[ \t]*use_lvmlockd[ \t]*=[ \t]*\d+[ \t]*` and nothing else. */
  predicate SettingLine(line: string) {
    var a := SkipBlanks(line);
    var b := if a != "" && a[0] == '#' then SkipBlanks(a[1..]) else a;
    StartsWith(b, KEY) && SettingTail(SkipBlanks(b[|KEY|..]))
  }

  predicate SettingTail(c: string) {
    && c != "" && c[0] == '='
    && var d := SkipBlanks(c[1..]);
       d != "" && '0' <= d[0] <= '9' && SkipBlanks(SkipDigits(d)) == ""
  }

  /** `global[ \t]*\{[ \t]*` and nothing else. */
  predicate GlobalLine(line: string) {
    && StartsWith(line, "global")
    && var a := SkipBlanks(line[|"global"|..]);
       a != "" && a[0] == '{' && SkipBlanks(a[1..]) == ""
  }

  // ----- What the patterns spell -----

  predicate Blanks(s: string) {
    forall c :: c in s ==> c == ' ' || c == '\t'
  }

  predicate Numerals(s: string) {
    s != "" && forall c :: c in s ==> c in "0123456789"
  }

  lemma {:induction false} SkipBlanksAfter(blanks: string, rest: string)
    requires Blanks(blanks) && (rest == "" || !Blanks(rest[..1]))
    ensures SkipBlanks(blanks + rest) == rest
  {
    if blanks == "" {
      assert blanks + rest == rest;
      assert rest != "" ==> rest[..1] == [rest[0]];
    } else {
      assert (blanks + rest)[1..] == blanks[1..] + rest;
      assert blanks[0] in blanks && forall c :: c in blanks[1..] ==> c in blanks;
      SkipBlanksAfter(blanks[1..], rest);
    }
  }

  lemma {:induction false} BlanksSkipped(s: string) returns (blanks: string)
    ensures Blanks(blanks) && s == blanks + SkipBlanks(s)
  {
    if s != "" && (s[0] == ' ' || s[0] == '\t') {
      var more := BlanksSkipped(s[1..]);
      blanks := [s[0]] + more;
      OneMore(s, more, SkipBlanks(s[1..]));
    } else {
      blanks := "";
    }
  }

  lemma OneMore(s: string, more: string, rest: string)
    requires s != "" && s[1..] == more + rest
    ensures s == ([s[0]] + more) + rest
  {
    assert s == [s[0]] + s[1..];
  }

  lemma IsNumeral(c: char)
    ensures '0' <= c <= '9' <==> c in "0123456789"
  {
    var all := "0123456789";
    if '0' <= c <= '9' {
      assert all[c as int - '0' as int] == c;
    }
  }

  lemma {:induction false} SkipDigitsAfter(digits: string, rest: string)
    requires (forall c :: c in digits ==> c in "0123456789") && (rest == "" || rest[0] !in "0123456789")
    ensures SkipDigits(digits + rest) == rest
  {
    if digits == "" {
      assert digits + rest == rest;
      if rest != "" { IsNumeral(rest[0]); }
    } else {
      assert (digits + rest)[1..] == digits[1..] + rest;
      assert digits[0] in digits && forall c :: c in digits[1..] ==> c in digits;
      IsNumeral(digits[0]);
      SkipDigitsAfter(digits[1..], rest);
    }
  }

  lemma {:induction false} DigitsSkipped(s: string) returns (digits: string)
    ensures (forall c :: c in digits ==> c in "0123456789") && s == digits + SkipDigits(s)
    ensures s != "" && s[0] in "0123456789" ==> digits != ""
  {
    digits := "";
    if s != "" {
      IsNumeral(s[0]);
      if s[0] in "0123456789" {
        var more := DigitsSkipped(s[1..]);
        digits := [s[0]] + more;
        OneMore(s, more, SkipDigits(s[1..]));
      }
    }
  }

  ghost predicate SpellsTail(c: string, b: string, n: string, e: string) {
    Blanks(b) && Numerals(n) && Blanks(e) && c == "=" + (b + (n + e))
  }

  lemma TailIsSpelled(c: string)
    ensures SettingTail(c) <==> exists b, n, e :: SpellsTail(c, b, n, e)
  {
    if SettingTail(c) {
      var d := SkipBlanks(c[1..]);
      var b := BlanksSkipped(c[1..]);
      var n := DigitsSkipped(d);
      IsNumeral(d[0]);
      var e := BlanksSkipped(SkipDigits(d));
      assert c == "=" + c[1..] && e == SkipDigits(d) + "" && e == SkipDigits(d);
      assert SpellsTail(c, b, n, e);
    }
    if b, n, e :| SpellsTail(c, b, n, e) {
      SpelledTail(c, b, n, e);
    }
  }

  lemma SpelledTail(c: string, b: string, n: string, e: string)
    requires SpellsTail(c, b, n, e)
    ensures SettingTail(c)
  {
    assert c[1..] == b + (n + e);
    assert n[0] in n && (n + e)[0] == n[0] && (n + e)[..1] == [n[0]] && n[0] in (n + e)[..1];
    SkipBlanksAfter(b, n + e);
    IsNumeral(n[0]);
    assert e != "" ==> e[0] in e;
    SkipDigitsAfter(n, e);
    assert e + "" == e;
    SkipBlanksAfter(e, "");
  }

  /** Blanks, the key with or without a mark before it, blanks, an equals sign, a number, and blanks around it. */
  ghost predicate SpellsSetting(line: string, a: string, mark: string, b: string, c: string, tail: string) {
    && Blanks(a) && mark in {"", "#"} && Blanks(b) && Blanks(c) && SettingTail(tail)
    && line == a + (mark + (b + (KEY + (c + tail))))
  }

  /** The lines that are replaced are those the pattern spells. */
  lemma SettingIsSpelled(line: string)
    ensures SettingLine(line) <==> exists a, mark, b, c, tail :: SpellsSetting(line, a, mark, b, c, tail)
  {
    hide SettingTail;
    if SettingLine(line) {
      SpelledBySetting(line);
    }
    if a, mark, b, c, tail :| SpellsSetting(line, a, mark, b, c, tail) {
      SpelledSetting(line, a, mark, b, c, tail);
    }
  }

  lemma SpelledBySetting(line: string)
    requires SettingLine(line)
    ensures exists a, mark, b, c, tail :: SpellsSetting(line, a, mark, b, c, tail)
  {
    hide SettingTail;
    var x := SkipBlanks(line);
    var a := BlanksSkipped(line);
    var mark, b, y := "", "", x;
    if x != "" && x[0] == '#' {
      y := SkipBlanks(x[1..]);
      b := BlanksSkipped(x[1..]);
      mark := "#";
      assert x == "#" + x[1..];
    }
    var rest := y[|KEY|..];
    var c := BlanksSkipped(rest);
    assert y == KEY + rest;
    assert mark + (b + y) == x;
    assert SpellsSetting(line, a, mark, b, c, SkipBlanks(rest));
  }

  lemma SpelledSetting(line: string, a: string, mark: string, b: string, c: string, tail: string)
    requires SpellsSetting(line, a, mark, b, c, tail)
    ensures SettingLine(line)
  {
    assert tail[0] == '=' && tail[..1] == "=";
    assert '=' in tail[..1];
    hide SettingTail;
    var rest := c + tail;
    var y := KEY + rest;
    SkipBlanksAfter(c, tail);
    assert y[0] == 'u' && y[..1] == "u" && 'u' in y[..1];
    assert y[..|KEY|] == KEY && y[|KEY|..] == rest;
    SkipBlanksAfter(b, y);
    if mark == "#" {
      var x := mark + (b + y);
      assert x[0] == '#' && x[..1] == "#" && '#' in x[..1] && x[1..] == b + y;
      SkipBlanksAfter(a, x);
    } else {
      assert line == (a + b) + y;
      SkipBlanksAfter(a + b, y);
    }
  }

  /** A section line is the word, blanks, a brace and blanks. */
  lemma SectionIsSpelled(line: string)
    ensures GlobalLine(line) <==> exists a, b :: SpellsSection(line, a, b)
  {
    if GlobalLine(line) {
      var rest := line[|"global"|..];
      var x := SkipBlanks(rest);
      var a := BlanksSkipped(rest);
      var b := BlanksSkipped(x[1..]);
      assert line == "global" + rest && x == "{" + x[1..] && b == x[1..];
      assert SpellsSection(line, a, b);
    }
    if a, b :| SpellsSection(line, a, b) {
      var x := "{" + b;
      assert line[..|"global"|] == "global" && line[|"global"|..] == a + x;
      assert x[0] == '{' && x[..1] == "{" && '{' in x[..1] && x[1..] == b;
      SkipBlanksAfter(a, x);
      assert b + "" == b;
      SkipBlanksAfter(b, "");
    }
  }

  ghost predicate SpellsSection(line: string, a: string, b: string) {
    Blanks(a) && Blanks(b) && line == "global" + (a + ("{" + b))
  }

  function FirstSetting(lines: seq<string>): (i: Option<nat>)
    ensures i.Some? ==> i.value < |lines| && SettingLine(lines[i.value]) && forall j :: 0 <= j < i.value ==>
      !SettingLine(lines[j])
    ensures i.None? ==> forall j :: 0 <= j < |lines| ==> !SettingLine(lines[j])
  {
    if lines == [] then None
    else if SettingLine(lines[0]) then Some(0)
    else
      var rest := FirstSetting(lines[1..]);
      assert forall j :: 1 <= j < |lines| ==> lines[j] == lines[1..][j - 1];
      if rest.Some? then Some(rest.value + 1) else None
  }

  function FirstGlobal(lines: seq<string>): (i: Option<nat>)
    ensures i.Some? ==> i.value < |lines| && GlobalLine(lines[i.value]) && forall j :: 0 <= j < i.value ==>
      !GlobalLine(lines[j])
    ensures i.None? ==> forall j :: 0 <= j < |lines| ==> !GlobalLine(lines[j])
  {
    if lines == [] then None
    else if GlobalLine(lines[0]) then Some(0)
    else
      var rest := FirstGlobal(lines[1..]);
      assert forall j :: 1 <= j < |lines| ==> lines[j] == lines[1..][j - 1];
      if rest.Some? then Some(rest.value + 1) else None
  }

  function Lines(content: string): (lines: seq<string>)
    ensures |lines| >= 1
  {
    Split(content, '\n')
  }

  /** Where a line begins in the content. */
  function LineStart(lines: seq<string>, i: nat): nat
    requires i < |lines|
  {
    if i == 0 then 0 else |lines[0]| + 1 + LineStart(lines[1..], i - 1)
  }

  lemma {:induction false} LineWithin(lines: seq<string>, i: nat)
    requires i < |lines|
    ensures LineStart(lines, i) + |lines[i]| <= |Join(lines, '\n')|
    ensures Join(lines, '\n')[LineStart(lines, i)..LineStart(lines, i) + |lines[i]|] == lines[i]
  {
    if i > 0 {
      LineWithin(lines[1..], i - 1);
      var rest := Join(lines[1..], '\n');
      var start := LineStart(lines[1..], i - 1);
      JoinedMore(lines, lines[0]);
      SliceAfter(lines[0] + "\n", rest, start, |lines[i]|);
    } else if |lines| > 1 {
      JoinedMore(lines, lines[0]);
      SliceOfHead(lines[0], "\n" + Join(lines[1..], '\n'));
    }
  }

  lemma SliceAfter(head: string, rest: string, start: nat, n: nat)
    requires start + n <= |rest|
    ensures (head + rest)[|head| + start..|head| + start + n] == rest[start..start + n]
  {
  }

  lemma SliceOfHead(head: string, rest: string)
    ensures (head + rest)[0..|head|] == head
  {
  }

  datatype Failure = NoGlobalSection

  /** The content with the setting written, by cutting at the match's offsets. */
  function EnableLvmlockd(content: string): Result<string, Failure> {
    var lines := Lines(content);
    var setting, section := FirstSetting(lines), FirstGlobal(lines);
    if setting.Some? then
      JoinOfSplit(content, '\n');
      LineWithin(lines, setting.value);
      var start := LineStart(lines, setting.value);
      Ok(content[..start] + SETTING + content[start + |lines[setting.value]|..])
    else if section.Some? then
      JoinOfSplit(content, '\n');
      LineWithin(lines, section.value);
      var end := LineStart(lines, section.value) + |lines[section.value]|;
      Ok(content[..end] + "\n" + SETTING + content[end..])
    else if TrimSpace(content) == "" then Ok(FRESH_FILE)
    else Err(NoGlobalSection)
  }

  /** A content is refused exactly when it says something but has neither a setting line nor a section. */
  lemma RefusedIff(content: string)
    ensures EnableLvmlockd(content).Err?
       <==> (forall line :: line in Lines(content) ==> !SettingLine(line) && !GlobalLine(line))
            && exists c :: c in content && !IsSpace(c)
  {
    hide SettingLine, GlobalLine, Lines, TrimSpace, IsSpace, EnableLvmlockd, FirstSetting, FirstGlobal;
    var lines := Lines(content);
    RefusedWhen(content);
    TrimsToNothing(content);
    assert FirstSetting(lines).None? <==> forall line :: line in lines ==> !SettingLine(line);
    assert FirstGlobal(lines).None? <==> forall line :: line in lines ==> !GlobalLine(line);
  }

  lemma RefusedWhen(content: string)
    ensures EnableLvmlockd(content).Err?
       <==> FirstSetting(Lines(content)).None? && FirstGlobal(Lines(content)).None? && TrimSpace(content) != ""
  {
    hide SettingLine, GlobalLine, Lines, TrimSpace, LineStart, FirstSetting, FirstGlobal;
  }

  /** What a line says about lvmlockd, if it is its setting. */
  function Reading(line: string): Option<bool> {
    ReadingOf(TrimSpace(line))
  }

  function ReadingOf(t: string): Option<bool> {
    if '=' !in t then None
    else
      var cut := IndexOf(t, '=');
      if TrimSpace(t[..cut]) == KEY then Some(TrimSpace(t[cut + 1..]) == "1") else None
  }

  function Readings(lines: seq<string>): (rs: seq<Option<bool>>)
    ensures |rs| == |lines| && forall i :: 0 <= i < |lines| ==> rs[i] == Reading(lines[i])
  {
    seq(|lines|, i requires 0 <= i < |lines| => Reading(lines[i]))
  }

  /** The first setting read decides. */
  function FirstSaid(readings: seq<Option<bool>>): Option<bool> {
    if readings == [] then None
    else if readings[0].Some? then readings[0]
    else FirstSaid(readings[1..])
  }

  /** What a file says, by its lines. */
  function Says(lines: seq<string>): Option<bool> {
    FirstSaid(Readings(lines))
  }

  predicate Enabled(content: string) {
    Says(Lines(content)) == Some(true)
  }

  method LockdEnabled(content: string) returns (enabled: bool)
    ensures enabled == Enabled(content)
  {
    var lines := Lines(content);
    ghost var readings := Readings(lines);
    for i := 0 to |lines|
      invariant FirstSaid(readings) == FirstSaid(readings[i..])
    {
      assert readings[i..][0] == readings[i] && readings[i..][1..] == readings[i + 1..];
      var reading := Reading(lines[i]);
      if reading.Some? {
        return reading.value;
      }
    }
    enabled := false;
  }

  // ----- Offsets are lines -----

  lemma JoinedMore(lines: seq<string>, x: string)
    requires |lines| > 1
    ensures Join(lines, '\n') == lines[0] + "\n" + Join(lines[1..], '\n')
    ensures Join(lines[0 := x], '\n') == x + "\n" + Join(lines[1..], '\n')
  {
    assert lines[0 := x][1..] == lines[1..];
  }

  lemma JoinedLater(lines: seq<string>, i: nat, x: string)
    requires 0 < i < |lines|
    ensures Join(lines[i := x], '\n') == lines[0] + "\n" + Join(lines[1..][i - 1 := x], '\n')
  {
    assert lines[i := x][1..] == lines[1..][i - 1 := x];
  }

  lemma CutHead(head: string, tail: string, x: string)
    ensures (head + tail)[..0] + x + (head + tail)[|head|..] == x + tail
  {
  }

  lemma StartOf(lines: seq<string>, i: nat)
    requires i < |lines|
    ensures LineStart(lines, i) == if i == 0 then 0 else |lines[0]| + 1 + LineStart(lines[1..], i - 1)
  {
  }

  /** Cutting out a line at its offsets and putting something there replaces the line. */
  lemma {:induction false} CutAtLine(lines: seq<string>, i: nat, x: string)
    requires i < |lines|
    ensures LineStart(lines, i) + |lines[i]| <= |Join(lines, '\n')|
    ensures Join(lines, '\n')[..LineStart(lines, i)] + x + Join(lines, '\n')[LineStart(lines, i) + |lines[i]|..]
      == Join(lines[i := x], '\n')
  {
    hide Join, LineStart;
    LineWithin(lines, i);
    StartOf(lines, i);
    if |lines| == 1 {
      CutOnlyLine(lines, x);
    } else if i == 0 {
      CutFirstLine(lines, x);
    } else {
      CutAtLine(lines[1..], i - 1, x);
      JoinedMore(lines, x);
      JoinedLater(lines, i, x);
      CutAfterHead(lines[0] + "\n", Join(lines[1..], '\n'), LineStart(lines[1..], i - 1), |lines[i]|, x);
    }
  }

  lemma CutOnlyLine(lines: seq<string>, x: string)
    requires |lines| == 1
    ensures Join(lines, '\n')[..0] + x + Join(lines, '\n')[|lines[0]|..] == Join(lines[0 := x], '\n')
  {
  }

  lemma CutFirstLine(lines: seq<string>, x: string)
    requires |lines| > 1
    ensures |lines[0]| <= |Join(lines, '\n')|
    ensures Join(lines, '\n')[..0] + x + Join(lines, '\n')[|lines[0]|..] == Join(lines[0 := x], '\n')
  {
    hide Join;
    var tail := "\n" + Join(lines[1..], '\n');
    JoinedMore(lines, x);
    CutHead(lines[0], tail, x);
    assert lines[0] + "\n" + Join(lines[1..], '\n') == lines[0] + tail;
    assert x + "\n" + Join(lines[1..], '\n') == x + tail;
  }

  /** And the lines then are those before, what was put there, and those after. */
  lemma {:induction false} LinesOfCut(lines: seq<string>, i: nat, x: string)
    requires i < |lines| && SepFree(lines, '\n')
    ensures Split(Join(lines[i := x], '\n'), '\n') == lines[..i] + Split(x, '\n') + lines[i + 1..]
  {
    hide Split;
    if |lines| == 1 {
      assert lines[0 := x] == [x] && lines[1..] == [];
    } else if i == 0 {
      assert lines[0 := x][1..] == lines[1..];
      SplitOfJoin(lines[1..], '\n');
      SplitConcat(x, Join(lines[1..], '\n'), '\n');
    } else {
      var rest := lines[1..];
      assert lines[i := x][1..] == rest[i - 1 := x] && lines[i := x][0] == lines[0];
      LinesOfCut(rest, i - 1, x);
      LineThen(lines[0], Join(rest[i - 1 := x], '\n'));
      AroundShifted(lines, i, Split(x, '\n'));
    }
  }

  lemma AroundShifted(lines: seq<string>, i: nat, mid: seq<string>)
    requires 0 < i < |lines|
    ensures [lines[0]] + (lines[1..][..i - 1] + mid + lines[1..][i..]) == lines[..i] + mid + lines[i + 1..]
  {
    assert lines[1..][..i - 1] == lines[1..i] && lines[1..][i..] == lines[i + 1..];
    assert lines[..i] == [lines[0]] + lines[1..i];
  }

  lemma LineThen(line: string, rest: string)
    requires '\n' !in line
    ensures Split(line + "\n" + rest, '\n') == [line] + Split(rest, '\n')
  {
    SplitConcat(line, rest, '\n');
    SplitOfFree(line, '\n');
  }

  lemma CutAfterHead(head: string, rest: string, at: nat, n: nat, x: string)
    requires at + n <= |rest|
    ensures head + (rest[..at] + x + rest[at + n..])
      == (head + rest)[..|head| + at] + x + (head + rest)[|head| + at + n..]
  {
    assert (head + rest)[..|head| + at] == head + rest[..at];
    assert (head + rest)[|head| + at + n..] == rest[at + n..];
  }

  /** Where the setting ends up: on the first setting line, else after the first global line, else in a fresh file. */
  function WrittenAt(content: string): nat {
    var lines := Lines(content);
    if FirstSetting(lines).Some? then FirstSetting(lines).value
    else if FirstGlobal(lines).Some? then FirstGlobal(lines).value + 1
    else 1
  }

  /** The lines before it, which writing leaves as they are. */
  function LinesBefore(content: string): seq<string> {
    var lines := Lines(content);
    if FirstSetting(lines).Some? || FirstGlobal(lines).Some? then lines[..WrittenAt(content)] else ["global {"]
  }

  function LinesAfter(content: string): seq<string> {
    var lines := Lines(content);
    if FirstSetting(lines).Some? then lines[WrittenAt(content) + 1..]
    else if FirstGlobal(lines).Some? then lines[WrittenAt(content)..]
    else ["}", ""]
  }

  lemma SettingIsOneLine()
    ensures '\n' !in SETTING
  {
  }

  lemma ReplacedLines(lines: seq<string>, all: string, i: nat, x: string)
    requires i < |lines| && SepFree(lines, '\n') && all == Join(lines, '\n') && '\n' !in x
    ensures LineStart(lines, i) + |lines[i]| <= |all|
    ensures Split(all[..LineStart(lines, i)] + x + all[LineStart(lines, i) + |lines[i]|..], '\n')
      == lines[..i] + [x] + lines[i + 1..]
  {
    hide Split, Join, LineStart;
    CutAtLine(lines, i, x);
    LinesOfCut(lines, i, x);
    SplitOfFree(x, '\n');
  }

  lemma InsertedLines(lines: seq<string>, all: string, i: nat, x: string)
    requires i < |lines| && SepFree(lines, '\n') && all == Join(lines, '\n') && '\n' !in x
    ensures LineStart(lines, i) + |lines[i]| <= |all|
    ensures var end := LineStart(lines, i) + |lines[i]|;
      Split(all[..end] + "\n" + x + all[end..], '\n') == lines[..i + 1] + [x] + lines[i + 1..]
  {
    hide Split, Join, LineStart;
    LineWithin(lines, i);
    var line := lines[i];
    var both := line + "\n" + x;
    CutAtLine(lines, i, both);
    LinesOfCut(lines, i, both);
    LineThen(line, x);
    SplitOfFree(x, '\n');
    InsertAfter(all, LineStart(lines, i), line, x);
    TwoForOne(lines, i, x);
  }

  lemma TwoForOne(lines: seq<string>, i: nat, x: string)
    requires i < |lines|
    ensures lines[..i] + ([lines[i]] + [x]) + lines[i + 1..] == lines[..i + 1] + [x] + lines[i + 1..]
  {
    assert lines[..i + 1] == lines[..i] + [lines[i]];
  }

  lemma InsertAfter(content: string, start: nat, line: string, x: string)
    requires start + |line| <= |content| && content[start..start + |line|] == line
    ensures var end := start + |line|;
      content[..end] + "\n" + x + content[end..] == content[..start] + (line + "\n" + x) + content[end..]
  {
    assert content[..start + |line|] == content[..start] + line;
  }

  /** Three lines, the last with its line end. */
  lemma ThreeLines(a: string, b: string, c: string)
    requires '\n' !in a && '\n' !in b && '\n' !in c
    ensures Split(a + "\n" + (b + "\n" + (c + "\n" + "")), '\n') == [a] + ([b] + ([c] + [""]))
  {
    hide Split;
    LineThen(c, "");
    LineThen(b, c + "\n" + "");
    LineThen(a, b + "\n" + (c + "\n" + ""));
    SplitOfFree("", '\n');
  }

  lemma FreshText(setting: string)
    ensures "global {\n" + setting + "\n}\n" == "global {" + "\n" + (setting + "\n" + ("}" + "\n" + ""))
  {
    assert "global {\n" == "global {" + "\n" && "\n}\n" == "\n" + ("}" + "\n" + "");
  }

  lemma FreshLines(setting: string)
    requires '\n' !in setting
    ensures Split("global {\n" + setting + "\n}\n", '\n') == ["global {"] + ([setting] + (["}"] + [""]))
  {
    hide Split;
    FreshText(setting);
    var a, c := "global {", "}";
    assert '\n' !in a && '\n' !in c;
    ThreeLines(a, setting, c);
  }

  /** Writing changes or adds that one line and keeps every other. */
  lemma WrittenLines(content: string)
    requires EnableLvmlockd(content).Ok?
    ensures Lines(EnableLvmlockd(content).value) == LinesBefore(content) + [SETTING] + LinesAfter(content)
  {
    var lines := Lines(content);
    JoinOfSplit(content, '\n');
    SettingIsOneLine();
    WrittenLinesOf(content, lines, SETTING);
  }

  lemma WrittenLinesOf(content: string, lines: seq<string>, setting: string)
    requires lines == Lines(content) && content == Join(lines, '\n') && SepFree(lines, '\n')
    requires setting == SETTING && '\n' !in setting && EnableLvmlockd(content).Ok?
    ensures Lines(EnableLvmlockd(content).value) == LinesBefore(content) + [setting] + LinesAfter(content)
  {
    hide Split, Join, LineStart, SettingLine, GlobalLine, SepFree, FirstSetting, FirstGlobal, TrimSpace;
    var first, section := FirstSetting(lines), FirstGlobal(lines);
    if first.Some? {
      ReplacedLines(lines, content, first.value, setting);
    } else if section.Some? {
      InsertedLines(lines, content, section.value, setting);
    } else {
      FreshLines(setting);
      assert ["global {"] + [setting] + ["}", ""] == ["global {", setting, "}", ""];
    }
  }

  // ----- What the written content says -----

  lemma {:induction false} FirstSaidOfConcat(a: seq<Option<bool>>, x: Option<bool>, b: seq<Option<bool>>)
    requires x.Some?
    ensures FirstSaid(a + [x] + b) == if FirstSaid(a).Some? then FirstSaid(a) else x
  {
    var all := a + [x] + b;
    if a == [] {
      assert all[0] == x;
    } else {
      assert all[0] == a[0] && all[1..] == a[1..] + [x] + b;
      FirstSaidOfConcat(a[1..], x, b);
    }
  }

  lemma TrimsLeft(a: string, s: string)
    requires |a| <= 1 && (a != "" ==> IsSpace(a[0])) && s != "" && !IsSpace(s[0])
    ensures TrimLeft(a + s) == s
  {
    if a == "" {
      assert a + s == s;
    } else {
      assert (a + s)[1..] == s && (a + s)[0] == a[0];
      assert TrimLeft(s) == s;
    }
  }

  lemma TrimsRight(s: string, b: string)
    requires |b| <= 1 && (b != "" ==> IsSpace(b[0])) && s != "" && !IsSpace(s[|s| - 1])
    ensures TrimRight(s + b) == s
  {
    if b == "" {
      assert s + b == s;
    } else {
      assert (s + b)[..|s|] == s && (s + b)[|s|] == b[0];
      assert TrimRight(s) == s;
    }
  }

  lemma TrimSides(a: string, s: string, b: string)
    requires |a| <= 1 && |b| <= 1 && (a != "" ==> IsSpace(a[0])) && (b != "" ==> IsSpace(b[0]))
    requires s != "" && !IsSpace(s[0]) && !IsSpace(s[|s| - 1])
    ensures TrimSpace(a + s + b) == s
  {
    assert a + s + b == a + (s + b);
    TrimsLeft(a, s + b);
    TrimsRight(s, b);
  }

  lemma ReadsAsCut(key: string, value: string)
    requires '=' !in key
    ensures ReadingOf(key + "=" + value) == if TrimSpace(key) == KEY then Some(TrimSpace(value) == "1") else None
  {
    hide TrimSpace, IndexOf;
    var t := key + "=" + value;
    IndexOfFirst(key, '=', value);
    assert t[..|key|] == key && t[|key| + 1..] == value;
  }

  lemma TrimmedParts(key: string)
    requires key != "" && !IsSpace(key[0]) && !IsSpace(key[|key| - 1])
    ensures TrimSpace(key + " ") == key && TrimSpace(" 1") == "1"
  {
    hide TrimSpace;
    TrimSides("", key, " ");
    TrimSides(" ", "1", "");
    assert "" + key + " " == key + " " && " " + "1" + "" == " 1";
  }

  lemma TrimmedLine(t: string)
    requires t != "" && !IsSpace(t[0]) && !IsSpace(t[|t| - 1])
    ensures TrimSpace("\t" + t) == t
  {
    hide TrimSpace;
    TrimSides("\t", t, "");
    assert "\t" + t + "" == "\t" + t;
  }

  /** A line `<tab><key> = 1` reads as the key's value. */
  lemma SettingReads(key: string)
    requires key == KEY && key != "" && !IsSpace(key[0]) && !IsSpace(key[|key| - 1]) && '=' !in key
    ensures Reading("\t" + key + " = 1") == Some(true)
  {
    hide TrimSpace, ReadingOf, IsSpace;
    var t := key + " " + "=" + " 1";
    assert "\t" + key + " = 1" == "\t" + t;
    assert t[0] == key[0] && t[|t| - 1] == '1';
    OneIsNoSpace();
    TrimmedLine(t);
    ReadsAsCut(key + " ", " 1");
    TrimmedParts(key);
  }

  lemma OneIsNoSpace()
    ensures !IsSpace('1')
  {
  }

  lemma KeyChars()
    ensures KEY != "" && !IsSpace(KEY[0]) && !IsSpace(KEY[|KEY| - 1]) && '=' !in KEY && '\n' !in KEY && KEY[0] == 'u'
  {
  }

  lemma SettingReadsOn()
    ensures Reading(SETTING) == Some(true)
  {
    KeyChars();
    SettingReads(KEY);
  }

  /**
   After enabling, lvmlockd reads as enabled exactly when the first line before the written one
   that reads at all, if there is any, does not read as disabled.
   */
  lemma EnabledIffNothingBefore(content: string)
    requires EnableLvmlockd(content).Ok?
    ensures Enabled(EnableLvmlockd(content).value) <==> Says(LinesBefore(content)) != Some(false)
  {
    WrittenLines(content);
    SettingReadsOn();
    EnabledWhen(EnableLvmlockd(content).value, LinesBefore(content), SETTING, LinesAfter(content));
  }

  lemma EnabledWhen(content: string, a: seq<string>, x: string, b: seq<string>)
    requires Lines(content) == a + [x] + b && Reading(x) == Some(true)
    ensures Enabled(content) <==> Says(a) != Some(false)
  {
    hide Reading, Split;
    SaysOfConcat(a, x, b);
    assert Says(Lines(content)) == if Says(a).Some? then Says(a) else Some(true);
    match Says(a)
    case None =>
    case Some(on) => assert on || !on;
  }

  lemma SaysOfConcat(a: seq<string>, x: string, b: seq<string>)
    requires Reading(x).Some?
    ensures Says(a + [x] + b) == if Says(a).Some? then Says(a) else Reading(x)
  {
    hide Reading, FirstSaid;
    assert Readings(a + [x] + b) == Readings(a) + [Reading(x)] + Readings(b);
    FirstSaidOfConcat(Readings(a), Reading(x), Readings(b));
  }

  // ----- Writing twice -----

  lemma TailOfSetting()
    ensures SettingTail(SkipBlanks(" = 1"))
  {
    var c := " = 1";
    assert c[1..] == "= 1" && SkipBlanks("= 1") == "= 1";
    assert "= 1"[1..] == " 1" && " 1"[1..] == "1";
    assert SkipBlanks("1") == "1" && "1"[1..] == "";
    assert SkipDigits("1") == "";
  }

  lemma SettingIsSettingOf(key: string)
    requires key == KEY && key != "" && key[0] != ' ' && key[0] != '\t' && key[0] != '#'
    ensures SettingLine("\t" + key + " = 1")
  {
    hide SettingTail;
    var line, b := "\t" + key + " = 1", key + " = 1";
    assert line[1..] == b && b[0] == key[0];
    assert SkipBlanks(line) == b;
    assert b[..|key|] == key && b[|key|..] == " = 1";
    TailOfSetting();
  }

  lemma SettingIsSetting()
    ensures SettingLine(SETTING)
  {
    SettingIsSettingOf(KEY);
  }

  lemma SectionIsNoSetting()
    ensures !SettingLine("global {") && Reading("global {") == None
  {
    hide SettingTail, ReadingOf, TrimSpace;
    var line := "global {";
    assert SkipBlanks(line) == line;
    NotAtHead(line, KEY);
    assert '=' !in line;
    SilentWithout(line);
  }

  lemma SilentWithout(line: string)
    requires '=' !in line
    ensures Reading(line) == None
  {
  }

  /** No line before the written one is a setting line. */
  lemma NoSettingBefore(content: string)
    requires EnableLvmlockd(content).Ok?
    ensures forall j :: 0 <= j < |LinesBefore(content)| ==> !SettingLine(LinesBefore(content)[j])
  {
    hide Split, SettingLine, GlobalLine, FirstSetting, FirstGlobal;
    SectionIsNoSetting();
  }

  lemma {:induction false} FirstSettingAt(lines: seq<string>, k: nat)
    requires k < |lines| && SettingLine(lines[k]) && forall j :: 0 <= j < k ==> !SettingLine(lines[j])
    ensures FirstSetting(lines) == Some(k)
  {
    hide SettingLine;
    var i := FirstSetting(lines);
    assert i.Some?;
  }

  lemma WritingOverItself(content: string, lines: seq<string>, k: nat)
    requires lines == Lines(content) && k < |lines| && FirstSetting(lines) == Some(k) && lines[k] == SETTING
    ensures EnableLvmlockd(content) == Ok(content)
  {
    hide Split, Join, LineStart, SettingLine, FirstSetting, FirstGlobal;
    JoinOfSplit(content, '\n');
    LineWithin(lines, k);
    PutBack(content, LineStart(lines, k), SETTING);
  }

  lemma PutBack(content: string, start: nat, x: string)
    requires start + |x| <= |content| && content[start..start + |x|] == x
    ensures content[..start] + x + content[start + |x|..] == content
  {
    assert content == content[..start] + content[start..start + |x|] + content[start + |x|..];
  }

  /** Enabling what is already written changes nothing, whatever was there before. */
  lemma EnableIsIdempotent(content: string)
    requires EnableLvmlockd(content).Ok?
    ensures EnableLvmlockd(EnableLvmlockd(content).value) == EnableLvmlockd(content)
  {
    hide Split, SettingLine, EnableLvmlockd, LinesBefore, LinesAfter;
    var written, before, after := EnableLvmlockd(content).value, LinesBefore(content), LinesAfter(content);
    WrittenLines(content);
    NoSettingBefore(content);
    SettingIsSetting();
    var lines := before + [SETTING] + after;
    assert lines[|before|] == SETTING;
    assert forall j :: 0 <= j < |before| ==> lines[j] == before[j];
    FirstSettingAt(lines, |before|);
    WritingOverItself(written, lines, |before|);
  }

  // ----- Plain settings -----

  /** Every line LockdEnabled would read is one EnableLvmlockd would replace. */
  ghost predicate PlainSettings(content: string) {
    forall j :: 0 <= j < |Lines(content)| && Reading(Lines(content)[j]).Some? ==> SettingLine(Lines(content)[j])
  }

  lemma {:induction false} NothingSaid(lines: seq<string>)
    requires forall j :: 0 <= j < |lines| ==> Reading(lines[j]).None?
    ensures Says(lines) == None
  {
    hide Reading;
    if lines != [] {
      assert Readings(lines)[1..] == Readings(lines[1..]);
      NothingSaid(lines[1..]);
    }
  }

  /** With plain numeric settings, enabling always leaves the content enabled. */
  lemma PlainSettingsEnable(content: string)
    requires EnableLvmlockd(content).Ok? && PlainSettings(content)
    ensures Enabled(EnableLvmlockd(content).value)
  {
    hide Split, SettingLine, GlobalLine, Reading, EnableLvmlockd, Enabled, Says;
    EnabledIffNothingBefore(content);
    NoSettingBefore(content);
    SectionIsNoSetting();
    var before := LinesBefore(content);
    forall j | 0 <= j < |before|
      ensures Reading(before[j]).None?
    {
      var lines := Lines(content);
      assert before == ["global {"] || before[j] == lines[j];
    }
    NothingSaid(before);
  }

  /** Without them it may not: this line is not replaced, and what it says wins over the written line below it. */
  lemma WordSettingStaysOff()
    ensures var content := KEY + "=yes" + "\n" + "global {";
      EnableLvmlockd(content).Ok? && !Enabled(EnableLvmlockd(content).value)
  {
    hide SettingLine, GlobalLine, Split, EnableLvmlockd, Says, LinesBefore, Reading;
    KeyChars();
    WordSetting(KEY);
    SectionIsNoSetting();
    SectionIsSection();
    var line, section := KEY + "=yes", "global {";
    assert '\n' !in section;
    LineThen(line, section);
    SplitOfFree(section, '\n');
    EarlierLineWins(line + "\n" + section, line, section);
  }

  lemma WordSetting(key: string)
    requires key == KEY && key != "" && !IsSpace(key[0]) && !IsSpace(key[|key| - 1]) && '=' !in key && key[0] == 'u'
      && '\n' !in key
    ensures Reading(key + "=yes") == Some(false) && '\n' !in key + "=yes"
    ensures !SettingLine(key + "=yes") && !GlobalLine(key + "=yes")
  {
    hide SettingLine, Reading, SkipBlanks;
    WordReads(key);
    WordIsNoSetting(key);
    NotAtHead(key + "=yes", "global");
  }

  lemma WordTail()
    ensures !SettingTail(SkipBlanks("=yes"))
  {
    assert "=yes"[1..] == "yes";
    assert SkipBlanks("yes") == "yes";
  }

  lemma WordIsNoSetting(key: string)
    requires key == KEY && key != "" && key[0] == 'u'
    ensures !SettingLine(key + "=yes")
  {
    hide SettingTail;
    var line := key + "=yes";
    assert line[..|key|] == key && line[|key|..] == "=yes" && line[0] == 'u';
    assert SkipBlanks(line) == line;
    WordTail();
  }

  lemma WordReads(key: string)
    requires key == KEY && key != "" && !IsSpace(key[0]) && !IsSpace(key[|key| - 1]) && '=' !in key
    ensures Reading(key + "=yes") == Some(false)
  {
    hide TrimSpace, ReadingOf;
    var line := key + "=yes";
    assert line == key + "=" + "yes" && line[|line| - 1] == 's';
    TrimNothing(line);
    TrimNothing(key);
    TrimNothing("yes");
    ReadsAsCut(key, "yes");
  }

  lemma SectionIsSection()
    ensures GlobalLine("global {")
  {
    assert "global {"[..6] == "global" && "global {"[6..] == " {" && " {"[1..] == "{" && "{"[1..] == "";
    assert SkipBlanks(" {") == "{";
  }

  lemma EarlierLineWins(content: string, line: string, section: string)
    requires Lines(content) == [line] + [section] && GlobalLine(section) && !GlobalLine(line)
    requires !SettingLine(section) && !SettingLine(line) && Reading(line) == Some(false) && Reading(section) == None
    ensures EnableLvmlockd(content).Ok? && !Enabled(EnableLvmlockd(content).value)
  {
    hide Split, SettingLine, GlobalLine, Reading, LineStart, Join;
    var lines := Lines(content);
    assert lines[0] == line && lines[1] == section;
    assert FirstSetting(lines).None? && FirstGlobal(lines) == Some(1);
    EnabledIffNothingBefore(content);
    assert LinesBefore(content)[0] == line;
    assert Readings(LinesBefore(content))[0] == Some(false);
  }
}
