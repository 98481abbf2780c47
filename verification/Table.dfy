/**
 The selection table of the terminal wizard
 (firecloud/cmd/tui/selectable_table.go): cursor, viewport, filter and
 selection under key, insert, enable, disable and error messages. Strings are
 their bytes, as the source cuts filters and searches bytewise.
 */
module Table {
  import opened Text

  type Row = seq<string>

  /** What the table holds, without the maps derived from it. */
  datatype State = State(rows: seq<Row>, filter: string, current: nat, start: nat,
                         selected: set<int>, disabled: set<int>, open: bool, err: Option<string>)

  datatype Key = Esc | CtrlC | Enter | Up | Down | Left | Right | Space | Backspace | Delete | Runes(text: string)
      | Other

  datatype Msg = Press(key: Key) | InsertRow(row: Row) | EnableRow(at: int) | DisableRow(at: int) | Fail(error: string)

  /** Rows displayed at once. */
  const SIZE: nat := 10

  // ----- Filtering -----

  predicate Contains(s: string, part: string) {
    Find(s, part).Some?
  }

  predicate Matches(row: Row, filter: string) {
    filter == "" || exists c :: 0 <= c < |row| && Contains(row[c], filter)
  }

  /** The raw rows the filter leaves, in order. */
  function Shown(rows: seq<Row>, filter: string): seq<nat> {
    if rows == [] then []
    else
      var n := |rows| - 1;
      Shown(rows[..n], filter) + if Matches(rows[n], filter) then [n] else []
  }

  ghost predicate Enumerates(shown: seq<nat>, rows: seq<Row>, filter: string) {
    && (forall i, j :: 0 <= i < j < |shown| ==> shown[i] < shown[j])
    && (forall r: nat :: r in shown <==> r < |rows| && Matches(rows[r], filter))
  }

  /** Shown lists exactly the matching rows, once each, in their order. */
  lemma {:induction false} ShownEnumerates(rows: seq<Row>, filter: string)
    ensures Enumerates(Shown(rows, filter), rows, filter)
  {
    hide Matches, Enumerates;
    if rows == [] {
      EnumeratesNothing(filter);
    } else {
      var n := |rows| - 1;
      ShownEnumerates(rows[..n], filter);
      EnumeratesOneMore(Shown(rows[..n], filter), rows, filter);
    }
  }

  lemma EnumeratesNothing(filter: string)
    ensures Enumerates([], [], filter)
  {
  }

  lemma EnumeratesOneMore(before: seq<nat>, rows: seq<Row>, filter: string)
    requires rows != [] && Enumerates(before, rows[..|rows| - 1], filter)
    ensures Enumerates(before + if Matches(rows[|rows| - 1], filter) then [|rows| - 1] else [], rows, filter)
  {
    hide Matches;
    var n := |rows| - 1;
    assert forall i :: 0 <= i < |before| ==> before[i] in before;
    assert forall r: nat :: r < n ==> rows[..n][r] == rows[r];
  }

  lemma ShownNothing(rows: seq<Row>, filter: string)
    ensures Shown(rows[..0], filter) == []
  {
  }

  lemma ShownOneMore(rows: seq<Row>, i: nat, filter: string)
    requires i < |rows|
    ensures Shown(rows[..i + 1], filter) == Shown(rows[..i], filter) + if Matches(rows[i], filter) then [i] else []
  {
    assert rows[..i + 1][..i] == rows[..i];
  }

  function FirstN(n: nat): (s: seq<nat>)
    ensures |s| == n && forall i :: 0 <= i < n ==> s[i] == i
  {
    seq(n, i => i)
  }

  /** Without a filter every row is shown, in its place. */
  lemma {:induction false} ShownAll(rows: seq<Row>)
    ensures Shown(rows, "") == FirstN(|rows|)
  {
    if rows != [] {
      ShownAll(rows[..|rows| - 1]);
    }
  }

  // ----- Messages -----

  /** The table Init starts with. */
  function Fresh(rows: seq<Row>, open: bool, err: Option<string>): State {
    State(rows, "", 0, 0, {}, {}, open, err)
  }

  function Filtered(t: State, filter: string): State {
    t.(filter := filter, current := 0, start := 0)
  }

  function Step(t: State, msg: Msg): State {
    match msg
    case Press(key) => Pressed(t, key)
    case InsertRow(row) => t.(rows := t.rows + [row])
    case EnableRow(at) => t.(disabled := t.disabled - {at})
    case DisableRow(at) => t.(selected := t.selected - {at}, disabled := t.disabled + {at})
    case Fail(error) => t.(err := Some(error))
  }

  function Pressed(t: State, key: Key): State {
    var shown := Shown(t.rows, t.filter);
    match key
    case Esc => t.(selected := {}, open := false)
    case CtrlC => t.(selected := {}, open := false)
    case Enter => t.(open := false)
    case Up =>
      if t.current == 0 then t
      else t.(current := t.current - 1, start := if t.current == t.start then t.start - 1 else t.start)
    case Down =>
      if t.current + 1 >= |shown| then t
      else t.(current := t.current + 1, start := if t.current + 1 >= t.start + SIZE then t.start + 1 else t.start)
    case Left => t.(selected := {})
    case Right => t.(selected := t.selected + (set i | 0 <= i < |shown| && shown[i] !in t.disabled :: shown[i]))
    case Space =>
      if t.current >= |shown| || shown[t.current] in t.disabled then t
      else if shown[t.current] in t.selected then t.(selected := t.selected - {shown[t.current]})
      else t.(selected := t.selected + {shown[t.current]})
    case Backspace => Filtered(t, if t.filter == "" then "" else t.filter[..|t.filter| - 1])
    case Delete => Filtered(t, if t.filter == "" then "" else t.filter[1..])
    case Runes(text) => Filtered(t, t.filter + text)
    case Other => t.(selected := {}, open := false, err := if t.err.Some? then Some("Input cancelled") else None)
  }

  function Run(t: State, msgs: seq<Msg>): State
    decreases |msgs|
  {
    if msgs == [] then t else Run(Step(t, msgs[0]), msgs[1..])
  }

  // ----- The invariant -----

  /**
   The cursor is on a shown row, or on the first line of an empty table, and inside the viewport;
   selected rows exist and none is disabled.
   */
  ghost predicate Sound(t: State) {
    && (t.current < |Shown(t.rows, t.filter)| || t.current == 0)
    && t.start <= t.current < t.start + SIZE
    && (forall r :: r in t.selected ==> 0 <= r < |t.rows| && r !in t.disabled)
  }

  lemma ShownInRange(rows: seq<Row>, filter: string)
    ensures forall i :: 0 <= i < |Shown(rows, filter)| ==> Shown(rows, filter)[i] < |rows|
  {
    hide Shown, Matches;
    ShownEnumerates(rows, filter);
    var shown := Shown(rows, filter);
    assert forall i :: 0 <= i < |shown| ==> shown[i] in shown;
  }

  /** A row put at the end leaves every shown row where it was. */
  lemma InsertAppends(rows: seq<Row>, row: Row, filter: string)
    ensures Shown(rows + [row], filter) == Shown(rows, filter) + if Matches(row, filter) then [|rows|] else []
  {
    assert (rows + [row])[..|rows|] == rows;
  }

  lemma StepSound(t: State, msg: Msg)
    requires Sound(t)
    ensures Sound(Step(t, msg))
  {
    hide Sound;
    match msg
    case Press(key) => PressSound(t, key);
    case InsertRow(row) => InsertSound(t, row);
    case EnableRow(at) => EnableSound(t, at);
    case DisableRow(at) => DisableSound(t, at);
    case Fail(error) => FailSound(t, error);
  }

  lemma InsertSound(t: State, row: Row)
    requires Sound(t)
    ensures Sound(t.(rows := t.rows + [row]))
  {
    hide Shown, Matches;
    InsertAppends(t.rows, row, t.filter);
  }

  lemma EnableSound(t: State, at: int)
    requires Sound(t)
    ensures Sound(t.(disabled := t.disabled - {at}))
  {
    hide Shown;
  }

  lemma DisableSound(t: State, at: int)
    requires Sound(t)
    ensures Sound(t.(selected := t.selected - {at}, disabled := t.disabled + {at}))
  {
    hide Shown;
  }

  lemma FailSound(t: State, error: string)
    requires Sound(t)
    ensures Sound(t.(err := Some(error)))
  {
    hide Shown;
  }

  lemma PressSound(t: State, key: Key)
    requires Sound(t)
    ensures Sound(Pressed(t, key))
  {
    hide Sound, Shown, Filtered;
    match key
    case Up => UpSound(t);
    case Down => DownSound(t);
    case Right => RightSound(t);
    case Space => SpaceSound(t);
    case Backspace => FilteredSound(t, if t.filter == "" then "" else t.filter[..|t.filter| - 1]);
    case Delete => FilteredSound(t, if t.filter == "" then "" else t.filter[1..]);
    case Runes(text) => FilteredSound(t, t.filter + text);
    case _ => UnselectedSound(t, t.open, t.err);
      UnselectedSound(t, false, t.err);
      UnselectedSound(t, false, Some("Input cancelled"));
      ClosedSound(t);
  }

  lemma UpSound(t: State)
    requires Sound(t)
    ensures Sound(Pressed(t, Up))
  {
    hide Shown;
  }

  lemma DownSound(t: State)
    requires Sound(t)
    ensures Sound(Pressed(t, Down))
  {
    hide Shown;
  }

  lemma RightSound(t: State)
    requires Sound(t)
    ensures Sound(Pressed(t, Right))
  {
    hide Shown;
    ShownInRange(t.rows, t.filter);
  }

  lemma SpaceSound(t: State)
    requires Sound(t)
    ensures Sound(Pressed(t, Space))
  {
    hide Shown;
    ShownInRange(t.rows, t.filter);
  }

  lemma FilteredSound(t: State, filter: string)
    requires Sound(t)
    ensures Sound(Filtered(t, filter))
  {
    hide Shown;
  }

  lemma UnselectedSound(t: State, open: bool, err: Option<string>)
    requires Sound(t)
    ensures Sound(t.(selected := {}, open := open, err := err))
  {
    hide Shown;
  }

  lemma ClosedSound(t: State)
    requires Sound(t)
    ensures Sound(t.(open := false))
  {
    hide Shown;
  }

  /** Over every run of messages from Init. */
  lemma {:induction false} RunSound(t: State, msgs: seq<Msg>)
    requires Sound(t)
    ensures Sound(Run(t, msgs))
    decreases |msgs|
  {
    hide Sound, Step;
    if msgs != [] {
      StepSound(t, msgs[0]);
      RunSound(Step(t, msgs[0]), msgs[1..]);
    }
  }

  /** So from Init on, whatever the rows and the messages. */
  lemma RunFromInit(rows: seq<Row>, open: bool, err: Option<string>, msgs: seq<Msg>)
    ensures Sound(Run(Fresh(rows, open, err), msgs))
  {
    FreshSound(rows, open, err);
    RunSound(Fresh(rows, open, err), msgs);
  }

  lemma FreshSound(rows: seq<Row>, open: bool, err: Option<string>)
    ensures Sound(Fresh(rows, open, err))
  {
  }

  // ----- What messages preserve -----

  /** The raw row under the cursor. */
  function UnderCursor(t: State): Option<nat> {
    var shown := Shown(t.rows, t.filter);
    if t.current < |shown| then Some(shown[t.current]) else None
  }

  /** New rows arriving never move the cursor off its row, nor the viewport, nor what a selected index stands for. */
  lemma InsertKeepsPlace(t: State, row: Row)
    requires Sound(t)
    ensures var after := Step(t, InsertRow(row));
      && (UnderCursor(t).Some? ==> UnderCursor(after) == UnderCursor(t))
      && after.start == t.start && after.selected == t.selected
      && forall r :: r in t.selected ==> 0 <= r < |t.rows| && after.rows[r] == t.rows[r]
  {
    hide Shown, Matches;
    InsertAppends(t.rows, row, t.filter);
  }

  lemma {:induction false} FoundAt(s: string, part: string, i: nat)
    requires i + |part| <= |s| && s[i..i + |part|] == part
    ensures Contains(s, part)
  {
    if i > 0 {
      assert s[1..][i - 1..i - 1 + |part|] == s[i..i + |part|];
      FoundAt(s[1..], part, i - 1);
    }
  }

  lemma {:induction false} FoundWhere(s: string, part: string)
    requires Contains(s, part)
    ensures var i := Find(s, part).value; i + |part| <= |s| && s[i..i + |part|] == part
  {
    if !StartsWith(s, part) {
      FoundWhere(s[1..], part);
      var i := Find(s[1..], part).value;
      assert s[1..][i..i + |part|] == s[i + 1..i + 1 + |part|];
    }
  }

  lemma ContainsMiddle(s: string, a: string, part: string, b: string)
    requires Contains(s, a + part + b)
    ensures Contains(s, part)
  {
    hide Find;
    FoundWhere(s, a + part + b);
    var i := Find(s, a + part + b).value;
    var at := i + |a|;
    MiddleAt(s, i, |a + part + b|, |a|, |part|);
    assert (a + part + b)[|a|..|a| + |part|] == part;
    FoundAt(s, part, at);
  }

  lemma MiddleAt(s: string, i: nat, n: nat, skip: nat, m: nat)
    requires i + n <= |s| && skip + m <= n
    ensures s[i..i + n][skip..skip + m] == s[i + skip..i + skip + m]
  {
    var whole, part := s[i..i + n], s[i + skip..i + skip + m];
    assert forall k :: 0 <= k < m ==> whole[skip..skip + m][k] == part[k];
  }

  lemma MatchesMiddle(row: Row, a: string, filter: string, b: string)
    requires Matches(row, a + filter + b)
    ensures Matches(row, filter)
  {
    hide Contains;
    if filter != "" {
      var c :| 0 <= c < |row| && Contains(row[c], a + filter + b);
      ContainsMiddle(row[c], a, filter, b);
    }
  }

  ghost predicate ShowsAll(wide: seq<nat>, narrow: seq<nat>) {
    forall r :: r in narrow ==> r in wide
  }

  lemma Narrows(rows: seq<Row>, a: string, filter: string, b: string)
    ensures ShowsAll(Shown(rows, filter), Shown(rows, a + filter + b))
  {
    hide Shown, Matches;
    ShownEnumerates(rows, filter);
    ShownEnumerates(rows, a + filter + b);
    forall r | r in Shown(rows, a + filter + b)
      ensures r in Shown(rows, filter)
    {
      MatchesMiddle(rows[r], a, filter, b);
    }
  }

  function ShownIn(t: State): seq<nat> {
    Shown(t.rows, t.filter)
  }

  /**
   Typing only narrows what is shown; taking a character off either end only widens it; no filter key
   touches the selection.
   */
  lemma FilterKeysNarrowAndWiden(t: State, text: string)
    ensures ShowsAll(ShownIn(t), ShownIn(Pressed(t, Runes(text))))
    ensures ShowsAll(ShownIn(Pressed(t, Backspace)), ShownIn(t))
    ensures ShowsAll(ShownIn(Pressed(t, Delete)), ShownIn(t))
    ensures forall key :: key in {Runes(text), Backspace, Delete} ==> Pressed(t, key).selected == t.selected
  {
    hide Shown;
    var f := t.filter;
    assert "" + f + text == f + text;
    Narrows(t.rows, "", f, text);
    if f != "" {
      var last, first := f[|f| - 1..], f[..1];
      assert "" + f[..|f| - 1] + last == f && first + f[1..] + "" == f;
      Narrows(t.rows, "", f[..|f| - 1], last);
      Narrows(t.rows, first, f[1..], "");
    }
  }

  /**
   Selecting all and confirming selects exactly the shown rows that are not disabled, beside what was
   already selected.
   */
  lemma RightSelectsShown(t: State, r: int)
    ensures r in Pressed(t, Right).selected <==>
      r in t.selected || (0 <= r < |t.rows| && Matches(t.rows[r], t.filter) && r !in t.disabled)
  {
    hide Matches, Shown;
    ShownEnumerates(t.rows, t.filter);
    var shown := Shown(t.rows, t.filter);
    if 0 <= r && r in shown {
      var i :| 0 <= i < |shown| && shown[i] == r;
    }
    assert forall i :: 0 <= i < |shown| ==> shown[i] in shown;
  }

  // ----- What the keys do -----

  /** A row matches when one of its columns, any of them, holds the filter somewhere. */
  lemma MatchesSomewhere(row: Row, filter: string)
    ensures Matches(row, filter)
       <==> filter == "" || exists c, i :: 0 <= c < |row| && OccursAt(row[c], filter, i)
  {
    hide Contains;
    if filter != "" && Matches(row, filter) {
      var c :| 0 <= c < |row| && Contains(row[c], filter);
      Occurs(row[c], filter);
    }
    if c, i :| 0 <= c < |row| && OccursAt(row[c], filter, i) {
      FoundAt(row[c], filter, i);
    }
  }

  lemma Occurs(s: string, part: string)
    requires Contains(s, part)
    ensures exists i :: OccursAt(s, part, i)
  {
    FoundWhere(s, part);
    assert OccursAt(s, part, Find(s, part).value);
  }

  predicate OccursAt(s: string, part: string, i: int) {
    0 <= i && i + |part| <= |s| && s[i..i + |part|] == part
  }

  /** The matching rows above a row. */
  ghost function Above(t: State, r: nat): set<nat> {
    set q: nat | q < r && q < |t.rows| && Matches(t.rows[q], t.filter)
  }

  /** The cursor is on the matching row with as many matching rows above it as the cursor's line says. */
  lemma CursorCounts(t: State, r: nat)
    ensures UnderCursor(t) == Some(r) <==> r < |t.rows| && Matches(t.rows[r], t.filter) && |Above(t, r)| == t.current
  {
    hide Shown, Matches;
    ShownEnumerates(t.rows, t.filter);
    var shown := Shown(t.rows, t.filter);
    if r in shown {
      var i :| 0 <= i < |shown| && shown[i] == r;
      AboveShown(t, i);
    } else {
      assert t.current < |shown| ==> shown[t.current] in shown;
    }
  }

  lemma AboveShown(t: State, i: nat)
    requires i < |Shown(t.rows, t.filter)|
    ensures |Above(t, Shown(t.rows, t.filter)[i])| == i
  {
    hide Shown, Matches;
    ShownEnumerates(t.rows, t.filter);
    var shown := Shown(t.rows, t.filter);
    assert forall k :: 0 <= k < |shown| ==> shown[k] in shown;
    AscendingSize(shown[..i]);
    assert Above(t, shown[i]) == Elements(shown[..i]);
  }

  function Elements(s: seq<nat>): set<nat> {
    set x | x in s
  }

  lemma {:induction false} AscendingSize(s: seq<nat>)
    requires forall j, k :: 0 <= j < k < |s| ==> s[j] < s[k]
    ensures |Elements(s)| == |s|
  {
    if s != [] {
      var n := |s| - 1;
      AscendingSize(s[..n]);
      assert s == s[..n] + [s[n]];
      assert Elements(s) == Elements(s[..n]) + {s[n]};
    }
  }

  predicate IsUnderCursor(t: State, r: int) {
    UnderCursor(t).Some? && UnderCursor(t).value == r
  }

  /** Space flips the row under the cursor, if it is not disabled, and no other; so pressing it twice does nothing. */
  lemma SpaceFlips(t: State, r: int)
    ensures r in Pressed(t, Space).selected
       <==> if IsUnderCursor(t, r) && r !in t.disabled then r !in t.selected else r in t.selected
    ensures Pressed(t, Space).(selected := t.selected) == t
    ensures Pressed(Pressed(t, Space), Space) == t
  {
    hide Shown;
    var after := Pressed(t, Space);
    if UnderCursor(t).Some? && UnderCursor(t).value !in t.disabled {
      var x := UnderCursor(t).value;
      assert (t.selected - {x}) + {x} == t.selected || x !in t.selected;
      assert (t.selected + {x}) - {x} == t.selected || x in t.selected;
    }
  }

  /** `b` is the first matching row after `a`. */
  ghost predicate NextMatch(t: State, a: nat, b: nat) {
    && a < b < |t.rows| && Matches(t.rows[a], t.filter) && Matches(t.rows[b], t.filter)
    && forall q :: a < q < b ==> !Matches(t.rows[q], t.filter)
  }

  lemma ShownNext(t: State, i: nat)
    requires i + 1 < |Shown(t.rows, t.filter)|
    ensures NextMatch(t, Shown(t.rows, t.filter)[i], Shown(t.rows, t.filter)[i + 1])
  {
    hide Shown, Matches;
    ShownEnumerates(t.rows, t.filter);
    var shown := Shown(t.rows, t.filter);
    assert forall k :: 0 <= k < |shown| ==> shown[k] in shown;
    forall k | 0 <= k < |shown|
      ensures shown[k] <= shown[i] || shown[k] >= shown[i + 1]
    {
    }
  }

  /** The first and the last line: no matching row before the one, none after the other. */
  lemma ShownEnds(t: State)
    requires Shown(t.rows, t.filter) != []
    ensures var shown := Shown(t.rows, t.filter);
      NoneBetween(t, 0, shown[0]) && NoneBetween(t, shown[|shown| - 1] + 1, |t.rows|)
  {
    hide Shown, Matches;
    ShownEnumerates(t.rows, t.filter);
    var shown := Shown(t.rows, t.filter);
    assert forall k :: 0 <= k < |shown| ==> shown[k] in shown;
    forall k | 0 <= k < |shown|
      ensures shown[0] <= shown[k] <= shown[|shown| - 1]
    {
    }
  }

  ghost predicate NoneBetween(t: State, a: nat, b: nat) {
    forall q :: a <= q < b && q < |t.rows| ==> !Matches(t.rows[q], t.filter)
  }

  /** Only the cursor and the viewport may differ, and the viewport moves no further than the cursor makes it. */
  ghost predicate CursorMoved(t: State, after: State) {
    && after == t.(current := after.current, start := after.start)
    && after.start == if after.current < t.start then t.start - 1
                      else if after.current >= t.start + SIZE then t.start + 1 else t.start
  }

  /** Down puts the cursor on the next matching row; on the last one, or without any, it does nothing. */
  lemma DownToNext(t: State)
    requires Sound(t)
    ensures CursorMoved(t, Pressed(t, Down))
    ensures match UnderCursor(t)
      case None => Pressed(t, Down) == t
      case Some(r) =>
        if NoneBetween(t, r + 1, |t.rows|) then Pressed(t, Down) == t
        else exists q: nat :: NextMatch(t, r, q) && UnderCursor(Pressed(t, Down)) == Some(q)
  {
    hide Shown, Matches;
    var shown := Shown(t.rows, t.filter);
    if t.current + 1 < |shown| {
      ShownNext(t, t.current);
      assert !NoneBetween(t, shown[t.current] + 1, |t.rows|);
    } else if shown != [] {
      ShownEnds(t);
    }
  }

  /** Up puts it on the previous matching row; on the first one it does nothing. */
  lemma UpToPrevious(t: State)
    requires Sound(t)
    ensures CursorMoved(t, Pressed(t, Up))
    ensures match UnderCursor(t)
      case None => Pressed(t, Up) == t
      case Some(r) =>
        if NoneBetween(t, 0, r) then Pressed(t, Up) == t
        else exists q: nat :: NextMatch(t, q, r) && UnderCursor(Pressed(t, Up)) == Some(q)
  {
    hide Shown, Matches;
    var shown := Shown(t.rows, t.filter);
    if t.current < |shown| {
      if t.current > 0 {
        ShownNext(t, t.current - 1);
        assert !NoneBetween(t, 0, shown[t.current]);
      } else {
        ShownEnds(t);
      }
    }
  }

  /** Keys that end the program, and what each leaves selected; no key touches rows or disabled rows. */
  lemma KeysThatEnd(t: State, key: Key)
    ensures Pressed(t, key).open <==> t.open && key !in {Esc, CtrlC, Enter, Other}
    ensures key in {Esc, CtrlC, Left, Other} ==> Pressed(t, key).selected == {}
    ensures key in {Enter, Up, Down, Backspace, Delete} || key.Runes? ==> Pressed(t, key).selected == t.selected
    ensures Pressed(t, key).rows == t.rows && Pressed(t, key).disabled == t.disabled
    ensures !key.Other? ==> Pressed(t, key).err == t.err
    ensures Pressed(t, Other).err == if t.err.Some? then Some("Input cancelled") else None
    ensures key in {Esc, CtrlC, Enter, Left, Right, Space, Other} ==>
      Pressed(t, key).(selected := t.selected, open := t.open, err := t.err) == t
  {
  }

  /** Backspace takes back the last character typed, Delete the first one; a filter key puts the cursor at the top. */
  lemma FilterKeysEdit(t: State, c: char, text: string)
    ensures Pressed(Pressed(t, Runes([c])), Backspace).filter == t.filter
    ensures t.filter == "" ==> Pressed(Pressed(Pressed(t, Runes([c])), Runes(text)), Delete).filter == text
    ensures Pressed(t, Runes("")).filter == t.filter
    ensures t.filter == "" ==> Pressed(t, Backspace).filter == "" && Pressed(t, Delete).filter == ""
    ensures forall key :: key in {Runes(text), Backspace, Delete} ==>
      Pressed(t, key) == t.(filter := Pressed(t, key).filter, current := 0, start := 0)
  {
    var typed := Pressed(t, Runes([c]));
    assert typed.filter == t.filter + [c];
    assert (t.filter + [c])[..|t.filter|] == t.filter;
    assert t.filter == "" ==> t.filter + [c] + text == [c] + text;
    assert ([c] + text)[1..] == text;
  }

  /** A disabled row is selected by nothing that happens, until it is enabled. */
  lemma {:induction false} DisabledStaysUnselected(t: State, at: int, msgs: seq<Msg>)
    requires at in t.disabled && at !in t.selected
    requires forall i :: 0 <= i < |msgs| ==> msgs[i] != EnableRow(at)
    ensures at in Run(t, msgs).disabled && at !in Run(t, msgs).selected
    decreases |msgs|
  {
    hide Step;
    if msgs != [] {
      DisabledStep(t, at, msgs[0]);
      assert forall i :: 0 <= i < |msgs[1..]| ==> msgs[1..][i] == msgs[i + 1];
      DisabledStaysUnselected(Step(t, msgs[0]), at, msgs[1..]);
    }
  }

  lemma DisabledStep(t: State, at: int, msg: Msg)
    requires at in t.disabled && at !in t.selected && msg != EnableRow(at)
    ensures at in Step(t, msg).disabled && at !in Step(t, msg).selected
  {
    hide Shown;
  }

  /** Disabling does that to one row and leaves the others be; enabling undoes it but for the selection. */
  lemma DisableThenEnable(t: State, at: int)
    ensures at in Step(t, DisableRow(at)).disabled && at !in Step(t, DisableRow(at)).selected
    ensures at !in t.disabled ==> Step(Step(t, DisableRow(at)), EnableRow(at)) == t.(selected := t.selected - {at})
    ensures at in t.disabled ==> Step(t, DisableRow(at)) == t.(selected := t.selected - {at})
    ensures at !in t.disabled ==> Step(t, EnableRow(at)) == t
  {
    assert at !in t.disabled ==> (t.disabled + {at}) - {at} == t.disabled;
    assert at in t.disabled ==> t.disabled + {at} == t.disabled;
    assert at !in t.disabled ==> t.disabled - {at} == t.disabled;
  }

  /** An error ends in an error: it stays the table's, but for cancelling, whatever is pressed or arrives later. */
  lemma {:induction false} FailureStays(t: State, msgs: seq<Msg>)
    requires t.err.Some?
    ensures Run(t, msgs).err.Some?
    ensures (forall i :: 0 <= i < |msgs| ==> !msgs[i].Fail? && msgs[i] != Press(Other)) ==> Run(t, msgs).err == t.err
    decreases |msgs|
  {
    hide Step;
    if msgs != [] {
      StepFails(t, msgs[0]);
      FailureStays(Step(t, msgs[0]), msgs[1..]);
      assert forall i :: 0 <= i < |msgs[1..]| ==> msgs[1..][i] == msgs[i + 1];
    }
  }

  lemma StepFails(t: State, msg: Msg)
    requires t.err.Some?
    ensures Step(t, msg).err
         == if msg.Fail? then Some(msg.error) else if msg == Press(Other) then Some("Input cancelled") else t.err
  {
    hide Shown;
  }

  /** A failure shows from any table, one without an error too. */
  lemma FailureShows(t: State, error: string)
    ensures Run(t, [Fail(error)]).err == Some(error)
  {
    assert [Fail(error)][1..] == [];
  }

  // ----- Removing rows -----

  /** What the remove message does: the row goes, its index leaves both sets, and the other indices stay as they are. */
  function Removed(t: State, at: int): State {
    if 0 <= at < |t.rows| then
      Filtered(t.(rows := t.rows[..at] + t.rows[at + 1..], selected := t.selected - {at},
        disabled := t.disabled - {at}), t.filter)
    else Filtered(t, t.filter)
  }

  /**
   It keeps the invariant exactly when the last row was not selected or is the one removed; otherwise
   Render reads past the rows.
   */
  lemma RemoveKeepsSoundIff(t: State, at: int)
    requires Sound(t) && 0 <= at < |t.rows|
    ensures Sound(Removed(t, at)) <==> (|t.rows| - 1 in t.selected ==> at == |t.rows| - 1)
  {
    hide Shown, Matches;
    var last := |t.rows| - 1;
    assert |Removed(t, at).rows| == last;
    if last in t.selected && at != last {
      assert last in Removed(t, at).selected;
    }
  }

  /** Of the removed row nothing is left; the rows after it move up, and the indices are left to stand for them. */
  lemma RemovedIsGone(t: State, at: nat)
    requires at < |t.rows|
    ensures var after := Removed(t, at);
      && |after.rows| == |t.rows| - 1
      && (forall i :: 0 <= i < |after.rows| ==> after.rows[i] == if i < at then t.rows[i] else t.rows[i + 1])
      && (forall i :: i in after.selected <==> i in t.selected && i != at)
      && (forall i :: i in after.disabled <==> i in t.disabled && i != at)
      && after.filter == t.filter && after.current == 0
  {
  }

  // ----- The object -----

  class SelectableTable {
    const header: seq<string>
    var rawRows: seq<Row>
    var formatRows: seq<Row>
    /** Displayed indices to indices in rawRows. */
    var filterMap: map<int, nat>
    var currentRow: int
    var startIndex: int
    var activeRows: set<int>
    var disabledRows: set<int>
    var filter: string
    var active: bool
    var err: Option<string>

    /** The derived maps fit the rows and the filter, and the cursor is sound. */
    ghost predicate Valid()
      reads this
    {
      && currentRow >= 0 && startIndex >= 0
      && Displays(formatRows, filterMap, rawRows, Shown(rawRows, filter))
      && Sound(Contents())
    }

    ghost function Contents(): State
      requires currentRow >= 0 && startIndex >= 0
      reads this
    {
      State(rawRows, filter, currentRow, startIndex, activeRows, disabledRows, active, err)
    }

    /** Render up to the program's start, and Init: the selection always begins afresh. */
    method Init(newRows: Option<seq<Row>>)
      modifies this
      ensures Valid()
      ensures Contents() == Fresh(if newRows.Some? then newRows.value else old(rawRows), true, old(err))
    {
      hide Shown, Displays, Sound;
      active := true;
      if newRows.Some? {
        rawRows := newRows.value;
      }
      activeRows, disabledRows := {}, {};
      formatRows, filterMap := [], map[];
      currentRow, startIndex := 0, 0;
      filter := "";
      CopyRows();
      ShownAll(rawRows);
      FreshSound(rawRows, true, err);
    }

    /** Every raw row is displayed, in its place. */
    method CopyRows()
      requires formatRows == [] && filterMap == map[]
      modifies this`formatRows, this`filterMap
      ensures Displays(formatRows, filterMap, rawRows, FirstN(|rawRows|))
    {
      for i := 0 to |rawRows|
        invariant Displays(formatRows, filterMap, rawRows, FirstN(i))
      {
        filterMap := filterMap[i := i];
        formatRows := formatRows + [rawRows[i]];
      }
    }

    method FilterRows(updatePos: bool)
      requires currentRow >= 0 && startIndex >= 0
      modifies this
      ensures Displays(formatRows, filterMap, rawRows, Shown(rawRows, filter))
      ensures currentRow == (if updatePos then 0 else old(currentRow)) && startIndex == if updatePos then 0
        else old(startIndex)
      ensures Contents() == old(Contents()).(current := currentRow, start := startIndex)
    {
      hide Shown, Matches;
      formatRows, filterMap := [], map[];
      ShownNothing(rawRows, filter);
      if updatePos {
        currentRow, startIndex := 0, 0;
      }
      var index := 0;
      for i := 0 to |rawRows|
        invariant rawRows == old(rawRows) && filter == old(filter) && activeRows == old(activeRows)
          && disabledRows == old(disabledRows)
        invariant active == old(active) && err == old(err)
        invariant currentRow == (if updatePos then 0 else old(currentRow)) && startIndex == if updatePos then 0
          else old(startIndex)
        invariant index == |formatRows| && Displays(formatRows, filterMap, rawRows, Shown(rawRows[..i], filter))
      {
        ShownOneMore(rawRows, i, filter);
        var matches := RowMatches(rawRows[i], filter);
        if matches {
          formatRows := formatRows + [rawRows[i]];
          filterMap := filterMap[index := i];
          index := index + 1;
        }
      }
      assert rawRows[..|rawRows|] == rawRows;
    }

    method HandleInsert(row: Row)
      requires Valid()
      modifies this
      ensures Valid() && Contents() == Step(old(Contents()), InsertRow(row))
    {
      hide Shown, Matches;
      StepSound(Contents(), InsertRow(row));
      rawRows := rawRows + [row];
      FilterRows(false);
    }

    method HandleDisable(at: int)
      requires Valid()
      modifies this
      ensures Valid() && Contents() == Step(old(Contents()), DisableRow(at))
    {
      StepSound(Contents(), DisableRow(at));
      activeRows := activeRows - {at};
      disabledRows := disabledRows + {at};
    }

    method HandleEnable(at: int)
      requires Valid()
      modifies this
      ensures Valid() && Contents() == Step(old(Contents()), EnableRow(at))
    {
      StepSound(Contents(), EnableRow(at));
      disabledRows := disabledRows - {at};
    }

    method HandleKey(key: Key)
      requires Valid()
      modifies this
      ensures Valid() && Contents() == Step(old(Contents()), Press(key))
    {
      hide Shown, Matches, Displays, Sound;
      InRange(Contents());
      MapIsShown(formatRows, filterMap, rawRows, Shown(rawRows, filter));
      StepSound(Contents(), Press(key));
      match key {
        case Esc => activeRows, active := {}, false;
        case CtrlC => activeRows, active := {}, false;
        case Enter => active := false;
        case Up =>
          if currentRow > 0 {
            currentRow := currentRow - 1;
            if currentRow < startIndex {
              startIndex := startIndex - 1;
            }
          }
        case Down =>
          if currentRow < |formatRows| - 1 {
            currentRow := currentRow + 1;
            if currentRow > startIndex + (SIZE - 1) {
              startIndex := startIndex + 1;
            }
          }
        case Left => activeRows := {};
        case Right => SelectAll();
        case Space =>
          if |formatRows| > 0 && filterMap[currentRow] !in disabledRows {
            if filterMap[currentRow] in activeRows {
              activeRows := activeRows - {filterMap[currentRow]};
            } else {
              activeRows := activeRows + {filterMap[currentRow]};
            }
          }
        case Backspace =>
          if |filter| > 0 {
            filter := filter[..|filter| - 1];
          }
          FilterRows(true);
        case Delete =>
          if |filter| > 0 {
            filter := filter[1..];
          }
          FilterRows(true);
        case Runes(text) =>
          TypeRunes(text);
          FilterRows(true);
        case Other =>
          activeRows, active := {}, false;
          if err.Some? {
            err := Some("Input cancelled");
          }
      }
    }

    method TypeRunes(text: string)
      requires currentRow >= 0 && startIndex >= 0
      modifies this`filter
      ensures filter == old(filter) + text
    {
      for i := 0 to |text|
        invariant filter == old(filter) + text[..i]
      {
        filter := filter + [text[i]];
        assert text[..i + 1] == text[..i] + [text[i]];
      }
      assert text[..|text|] == text;
    }

    /** The right arrow: every shown row that may be selected. */
    method SelectAll()
      requires Valid()
      modifies this
      ensures Displays(formatRows, filterMap, rawRows, Shown(rawRows, filter))
      ensures currentRow >= 0 && startIndex >= 0 && Contents() == Pressed(old(Contents()), Right)
    {
      hide Shown, Matches;
      ghost var shown := Shown(rawRows, filter);
      ghost var was := Contents();
      for i := 0 to |formatRows|
        invariant currentRow >= 0 && startIndex >= 0 && formatRows == old(formatRows) && filterMap == old(filterMap)
        invariant Displays(formatRows, filterMap, rawRows, shown)
        invariant Contents() == was.(selected := was.selected
          + (set k | 0 <= k < i && shown[k] !in was.disabled :: shown[k]))
      {
        if filterMap[i] !in disabledRows {
          activeRows := activeRows + {filterMap[i]};
        }
      }
    }

    /** The end of Render: the error, or the selection as maps, sorted by the first column. */
    method Result() returns (r: Rendered)
      requires Valid()
      ensures r.Failed? <==> err.Some?
      ensures r.Failed? ==> r.error == err.value
      ensures r.Panics? <==> err.None? && !Renders(Contents(), header)
      ensures r.Rows? ==> IsResult(Contents(), header, r.rows)
    {
      if err.Some? {
        return Failed(err.value);
      }
      var chosen := Choose(activeRows, disabledRows, |rawRows|);
      var t := State(rawRows, filter, currentRow, startIndex, activeRows, disabledRows, active, err);
      var wide := HasWide(t, header, chosen);
      if wide || (header == [] && |chosen| > 1) {
        TooMany(t, chosen);
        return Panics;
      }
      var out := ResultOf(t, header, chosen);
      r := Rows(out);
    }
  }

  /** Displayed row k is raw row shown[k]. */
  ghost predicate Displays(formatRows: seq<Row>, filterMap: map<int, nat>, rows: seq<Row>, shown: seq<nat>) {
    && |formatRows| == |shown|
    && (forall k :: k in filterMap <==> 0 <= k < |shown|)
    && (forall k :: 0 <= k < |shown| ==>
          filterMap[k] == shown[k] && shown[k] < |rows| && formatRows[k] == rows[shown[k]])
  }

  lemma MapIsShown(formatRows: seq<Row>, filterMap: map<int, nat>, rows: seq<Row>, shown: seq<nat>)
    requires Displays(formatRows, filterMap, rows, shown)
    ensures |formatRows| == |shown| && forall k :: 0 <= k < |shown| ==> k in filterMap && filterMap[k] == shown[k]
  {
  }

  lemma InRange(t: State)
    requires Sound(t)
    ensures (t.current < |Shown(t.rows, t.filter)| || t.current == 0) && t.start <= t.current < t.start + SIZE
  {
    hide Shown;
  }

  method RowMatches(row: Row, filter: string) returns (matches: bool)
    ensures matches == Matches(row, filter)
  {
    matches := |filter| == 0;
    if !matches {
      for c := 0 to |row|
        invariant !matches && forall k :: 0 <= k < c ==> !Contains(row[k], filter)
      {
        if Contains(row[c], filter) {
          return true;
        }
      }
    }
  }

  // ----- The result -----

  /** A row's columns by their headers; of equal headers the last column counts. */
  function RowMap(header: seq<string>, row: Row): map<string, string>
    requires |row| <= |header|
  {
    if row == [] then map[]
    else
      var n := |row| - 1;
      RowMap(header, row[..n])[header[n] := row[n]]
  }

  /** A missing key reads as the empty string. */
  function Field(m: map<string, string>, key: string): string {
    if key in m then m[key] else ""
  }

  /** Under headers that differ, each column of a row is read back by its header, and nothing else is. */
  lemma {:induction false} RowMapReads(header: seq<string>, row: Row)
    requires |row| <= |header| && Distinct(header)
    ensures forall j :: 0 <= j < |row| ==> header[j] in RowMap(header, row) && RowMap(header, row)[header[j]] == row[j]
    ensures forall key :: key in RowMap(header, row) <==> key in header[..|row|]
  {
    if row != [] {
      var n := |row| - 1;
      RowMapReads(header, row[..n]);
      assert header[..|row|] == header[..n] + [header[n]];
    }
  }

  /** How Render ends: with the selection, with an error, or reading past the header. */
  datatype Rendered = Rows(rows: seq<map<string, string>>) | Failed(error: string) | Panics

  predicate RowFits(row: Row, header: seq<string>) {
    |row| <= |header|
  }

  function FirstHeader(header: seq<string>): string {
    if header == [] then "" else header[0]
  }

  /**
   Render gets through: every selected row has a header for each of its
   columns, and two rows have a first header to be compared by.
   */
  ghost predicate Renders(t: State, header: seq<string>) {
    && (forall r :: r in t.selected && 0 <= r < |t.rows| ==> RowFits(t.rows[r], header))
    && (header == [] ==> forall r, q :: r in t.selected && q in t.selected ==> r == q)
  }

  /** Every selected row once, as maps, ascending by the first column. */
  ghost predicate IsResult(t: State, header: seq<string>, out: seq<map<string, string>>) {
    exists order: seq<nat> :: IsOrder(t, header, out, order)
  }

  ghost predicate IsOrder(t: State, header: seq<string>, out: seq<map<string, string>>, order: seq<nat>) {
    && Distinct(order) && (forall r :: r in t.selected <==> r >= 0 && r in order)
    && |out| == |order|
    && (forall k :: 0 <= k < |out| ==> IsMapOf(t, header, out[k], order[k]))
    && (forall i, j :: 0 <= i < j < |out| ==>
      Leq(Field(out[i], FirstHeader(header)), Field(out[j], FirstHeader(header))))
  }

  predicate IsMapOf(t: State, header: seq<string>, m: map<string, string>, r: nat) {
    r < |t.rows| && RowFits(t.rows[r], header) && m == RowMap(header, t.rows[r])
  }

  /** Every selected row is in the result, each of its columns under its header. */
  lemma ResultReads(t: State, header: seq<string>, out: seq<map<string, string>>, r: nat, j: nat)
    requires IsResult(t, header, out) && Distinct(header) && r in t.selected
    requires r < |t.rows| && j < |t.rows[r]|
    ensures j < |header| && exists k :: 0 <= k < |out| && header[j] in out[k] && out[k][header[j]] == t.rows[r][j]
  {
    var order: seq<nat> :| IsOrder(t, header, out, order);
    var k :| 0 <= k < |order| && order[k] == r;
    assert IsMapOf(t, header, out[k], order[k]);
    RowMapReads(header, t.rows[r]);
  }

  // ----- When rows are too wide -----

  /** Every row there is has a header for each of its columns. */
  ghost predicate Fits(rows: seq<Row>, header: seq<string>) {
    forall i :: 0 <= i < |rows| ==> RowFits(rows[i], header)
  }

  ghost predicate MsgFits(msg: Msg, header: seq<string>) {
    msg.InsertRow? ==> RowFits(msg.row, header)
  }

  lemma StepRows(t: State, msg: Msg)
    ensures Step(t, msg).rows == if msg.InsertRow? then t.rows + [msg.row] else t.rows
  {
  }

  lemma StepFitsIff(t: State, msg: Msg, header: seq<string>)
    ensures Fits(Step(t, msg).rows, header) <==> Fits(t.rows, header) && MsgFits(msg, header)
  {
    hide Step;
    StepRows(t, msg);
    if msg.InsertRow? {
      var all := t.rows + [msg.row];
      assert all[|t.rows|] == msg.row && forall i :: 0 <= i < |t.rows| ==> all[i] == t.rows[i];
    }
  }

  /** Over every run all rows fit the header exactly when those at the start and every inserted one do. */
  lemma {:induction false} RunFitsIff(t: State, msgs: seq<Msg>, header: seq<string>)
    ensures Fits(Run(t, msgs).rows, header)
       <==> Fits(t.rows, header) && forall i :: 0 <= i < |msgs| ==> MsgFits(msgs[i], header)
    decreases |msgs|
  {
    hide Fits, Step, MsgFits;
    if msgs != [] {
      StepFitsIff(t, msgs[0], header);
      RunFitsIff(Step(t, msgs[0]), msgs[1..], header);
      assert forall i :: 0 < i < |msgs| ==> msgs[i] == msgs[1..][i - 1];
    }
  }

  /**
   So a table with headers whose rows fit never reads past them, whatever is pressed and inserted, as
   long as what is inserted fits.
   */
  lemma FittingRunRenders(t: State, msgs: seq<Msg>, header: seq<string>)
    requires header != [] && Fits(t.rows, header) && forall i :: 0 <= i < |msgs| ==> MsgFits(msgs[i], header)
    ensures Renders(Run(t, msgs), header)
  {
    RunFitsIff(t, msgs, header);
  }

  /** Rows with one column for each header, whatever they are and however they come, never make Render read past it. */
  lemma ExactRowsRender(t: State, msgs: seq<Msg>, header: seq<string>)
    requires header != [] && forall i :: 0 <= i < |t.rows| ==> |t.rows[i]| == |header|
    requires forall i :: 0 <= i < |msgs| && msgs[i].InsertRow? ==> |msgs[i].row| == |header|
    ensures Renders(Run(t, msgs), header)
  {
    FittingRunRenders(t, msgs, header);
  }

  /** A row inserted with more columns than headers, once selected, makes Render read past the header. */
  lemma WideRowPanics(title: string, a: string, b: string)
    ensures var t := Run(Fresh([], true, None), [InsertRow([a, b]), Press(Right)]);
      Sound(t) && !Renders(t, [title])
  {
    SelectsInserted(Fresh([], true, None), [a, b]);
    RunFromInit([], true, None, [InsertRow([a, b]), Press(Right)]);
  }

  lemma SelectsInserted(t: State, row: Row)
    requires t.filter == "" && |t.rows| !in t.disabled
    ensures var after := Run(t, [InsertRow(row), Press(Right)]);
      after.rows == t.rows + [row] && |t.rows| in after.selected
  {
    hide Shown;
    var msgs := [InsertRow(row), Press(Right)];
    var inserted := Step(t, msgs[0]);
    RightSelectsShown(inserted, |t.rows|);
    assert msgs[1..] == [Press(Right)] && msgs[1..][1..] == [];
    assert Run(inserted, msgs[1..]) == Step(inserted, Press(Right));
  }

  method HasWide(t: State, header: seq<string>, chosen: seq<nat>) returns (wide: bool)
    requires Sound(t) && forall r :: r in t.selected <==> r >= 0 && r in chosen
    ensures wide <==> exists r :: r in t.selected && 0 <= r < |t.rows| && !RowFits(t.rows[r], header)
  {
    wide := false;
    for k := 0 to |chosen|
      invariant wide <==> exists j :: 0 <= j < k && chosen[j] < |t.rows| && !RowFits(t.rows[chosen[j]], header)
    {
      assert chosen[k] in t.selected;
      if !RowFits(t.rows[chosen[k]], header) {
        wide := true;
      }
    }
    if r :| r in t.selected && 0 <= r < |t.rows| && !RowFits(t.rows[r], header) {
      var j :| 0 <= j < |chosen| && chosen[j] == r;
    }
    if j :| 0 <= j < |chosen| && chosen[j] < |t.rows| && !RowFits(t.rows[chosen[j]], header) {
      assert chosen[j] in chosen;
    }
  }

  /** More than one chosen row: two different selected ones. */
  lemma TooMany(t: State, chosen: seq<nat>)
    requires Distinct(chosen) && forall r :: r in t.selected <==> r >= 0 && r in chosen
    ensures |chosen| > 1 ==> exists r, q :: r in t.selected && q in t.selected && r != q
  {
    if |chosen| > 1 {
      assert chosen[0] in chosen && chosen[1] in chosen;
    }
  }

  lemma SomeIn(s: set<int>)
    ensures s == {} || exists i: int :: i in s
  {
    if forall i: int :: i !in s {
      assert s == {};
    }
  }

  /** The selected rows that are not disabled, in no particular order. */
  method Choose(activeRows: set<int>, disabledRows: set<int>, n: nat) returns (chosen: seq<nat>)
    requires forall r :: r in activeRows ==> 0 <= r < n
    ensures Distinct(chosen) && forall r: int :: r in activeRows && r !in disabledRows <==> r >= 0 && r in chosen
  {
    chosen := [];
    var rest := activeRows;
    while rest != {}
      invariant rest <= activeRows
      invariant forall r: int :: r in activeRows && r !in disabledRows && r !in rest <==> r >= 0 && r in chosen
      invariant Distinct(chosen)
      decreases |rest|
    {
      SomeIn(rest);
      var i: int :| i in rest;
      if i !in disabledRows {
        chosen := chosen + [i];
      }
      rest := rest - {i};
    }
  }

  method MakeRowMap(header: seq<string>, row: Row) returns (m: map<string, string>)
    requires |row| <= |header|
    ensures m == RowMap(header, row)
  {
    m := map[];
    for j := 0 to |row|
      invariant m == RowMap(header, row[..j])
    {
      assert row[..j + 1][..j] == row[..j];
      m := m[header[j] := row[j]];
    }
    assert row[..|row|] == row;
  }

  function InsertBy(key: nat -> string, x: nat, s: seq<nat>): (r: seq<nat>)
    ensures multiset(r) == multiset(s) + multiset{x}
  {
    if s == [] || Leq(key(x), key(s[0])) then [x] + s
    else
      assert s == [s[0]] + s[1..];
      [s[0]] + InsertBy(key, x, s[1..])
  }

  function SortBy(key: nat -> string, s: seq<nat>): (r: seq<nat>)
    ensures multiset(r) == multiset(s)
  {
    if s == [] then []
    else
      assert s == [s[0]] + s[1..];
      InsertBy(key, s[0], SortBy(key, s[1..]))
  }

  ghost predicate AscendingBy(key: nat -> string, s: seq<nat>) {
    forall i, j :: 0 <= i < j < |s| ==> Leq(key(s[i]), key(s[j]))
  }

  lemma {:induction false} InsertByAscending(key: nat -> string, x: nat, s: seq<nat>)
    requires AscendingBy(key, s)
    ensures AscendingBy(key, InsertBy(key, x, s))
  {
    if s == [] {
    } else if Leq(key(x), key(s[0])) {
      forall j | 0 <= j < |s|
        ensures Leq(key(x), key(s[j]))
      {
        if j > 0 {
          LeqTransitive(key(x), key(s[0]), key(s[j]));
        }
      }
    } else {
      LeqTotal(key(x), key(s[0]));
      InsertByAscending(key, x, s[1..]);
      var rest := InsertBy(key, x, s[1..]);
      forall j | 0 <= j < |rest|
        ensures Leq(key(s[0]), key(rest[j]))
      {
        assert rest[j] in multiset(rest);
        assert rest[j] == x || rest[j] in s[1..];
      }
    }
  }

  lemma {:induction false} SortByAscending(key: nat -> string, s: seq<nat>)
    ensures AscendingBy(key, SortBy(key, s))
  {
    if s != [] {
      SortByAscending(key, s[1..]);
      InsertByAscending(key, s[0], SortBy(key, s[1..]));
    }
  }

  /** The first column of a raw row, as the result is sorted by. */
  function SortKey(rows: seq<Row>, header: seq<string>): nat -> string {
    (r: nat) => if r < |rows| && RowFits(rows[r], header) then Field(RowMap(header, rows[r]), FirstHeader(header))
      else ""
  }

  method ResultOf(t: State, header: seq<string>, chosen: seq<nat>) returns (out: seq<map<string, string>>)
    requires Sound(t) && forall r :: r in t.selected && 0 <= r < |t.rows| ==> RowFits(t.rows[r], header)
    requires Distinct(chosen) && forall r :: r in t.selected <==> r >= 0 && r in chosen
    ensures IsResult(t, header, out) && |out| == |chosen|
  {
    hide Shown, Leq, SortBy, RowMap;
    var key := SortKey(t.rows, header);
    var order := SortBy(key, chosen);
    SortByAscending(key, chosen);
    DistinctReordered(chosen, order);
    SameMembers(order, chosen);
    out := [];
    for k := 0 to |order|
      invariant |out| == k
      invariant forall i :: 0 <= i < k ==> IsMapOf(t, header, out[i], order[i])
    {
      assert order[k] in chosen && order[k] in t.selected;
      var m := MakeRowMap(header, t.rows[order[k]]);
      out := out + [m];
    }
    assert forall i :: 0 <= i < |out| ==> key(order[i]) == Field(out[i], FirstHeader(header));
    assert IsOrder(t, header, out, order);
  }
}
