/**
 The sanlock host ids of clustered LVM's members (firecloud/integration/lvm.go):
 kept in one configuration string, handed out once, never again.
 */
module HostIds {
  import opened Text

  const MAX_HOST_ID := 2000

  datatype Failure = InvalidEntry(entry: string) | InvalidId(id: string, name: string) | NoIdLeft(name: string)

  type Ids = map<string, int>

  // ----- Numbers as text -----

  function Digit(d: nat): char
    requires d < 10
  {
    "0123456789"[d]
  }

  predicate IsDigit(c: char) {
    '0' <= c <= '9'
  }

  /** `%d` for a natural number. */
  function Decimal(n: nat): (s: string)
    ensures s != "" && forall i :: 0 <= i < |s| ==> IsDigit(s[i])
  {
    if n < 10 then [Digit(n)] else Decimal(n / 10) + [Digit(n % 10)]
  }

  function FormatInt(n: int): string {
    if n < 0 then "-" + Decimal(-n) else Decimal(n)
  }

  predicate AllDigits(s: string) {
    s != "" && forall i :: 0 <= i < |s| ==> IsDigit(s[i])
  }

  function DigitValue(c: char): nat
    requires IsDigit(c)
  {
    c as int - '0' as int
  }

  function DigitsValue(s: string): nat
    requires forall i :: 0 <= i < |s| ==> IsDigit(s[i])
  {
    if s == "" then 0 else 10 * DigitsValue(s[..|s| - 1]) + DigitValue(s[|s| - 1])
  }

  /**
   strconv.Atoi: an optional sign and decimal digits. (Numbers too large for the machine also end up
   refused, by range.)
   */
  function Atoi(s: string): Option<int> {
    if AllDigits(s) then Some(DigitsValue(s))
    else if s != "" && (s[0] == '+' || s[0] == '-') && AllDigits(s[1..]) then
      var n: int := DigitsValue(s[1..]);
      Some(if s[0] == '-' then -n else n)
    else None
  }

  lemma {:induction false} ValueOfDecimal(n: nat)
    ensures DigitsValue(Decimal(n)) == n
  {
    if n >= 10 {
      ValueOfDecimal(n / 10);
      assert Decimal(n)[..|Decimal(n)| - 1] == Decimal(n / 10);
    } else {
      assert [Digit(n)][..0] == "";
    }
  }

  lemma AtoiOfFormat(n: int)
    ensures Atoi(FormatInt(n)) == Some(n)
  {
    hide Decimal, DigitsValue;
    if n < 0 {
      ValueOfDecimal(-n);
      assert FormatInt(n)[1..] == Decimal(-n);
      SignIsNoDigit(FormatInt(n));
    } else {
      ValueOfDecimal(n);
    }
  }

  /** Signs and leading zeros are read, and nothing else but digits is. */
  lemma AtoiReads(s: string)
    ensures Atoi(s).Some? <==> AllDigits(s) || (s != "" && s[0] in {'+', '-'} && AllDigits(s[1..]))
    ensures AllDigits(s) ==>
      Atoi(s) == Atoi("+" + s) && Atoi("-" + s) == Some(-Atoi(s).value) && Atoi("0" + s) == Atoi(s)
  {
    if AllDigits(s) {
      assert ("+" + s)[1..] == s && ("-" + s)[1..] == s;
      LeadingZero(s);
      assert ("0" + s)[0] == '0' && forall i :: 1 <= i < |"0" + s| ==> ("0" + s)[i] == s[i - 1];
    }
  }

  lemma {:induction false} LeadingZero(s: string)
    requires forall i :: 0 <= i < |s| ==> IsDigit(s[i])
    ensures forall i :: 0 <= i < |"0" + s| ==> IsDigit(("0" + s)[i])
    ensures DigitsValue("0" + s) == DigitsValue(s)
  {
    if s == "" {
      assert "0"[..0] == "";
    } else {
      LeadingZero(s[..|s| - 1]);
      assert ("0" + s)[..|s|] == "0" + s[..|s| - 1];
    }
  }

  lemma SignIsNoDigit(s: string)
    requires s != "" && s[0] == '-'
    ensures !AllDigits(s)
  {
  }

  // ----- The stored value -----

  predicate ValidId(id: int) {
    1 <= id <= MAX_HOST_ID
  }

  /** What one part of the value says. */
  datatype Item = Blank | Pair(name: string, id: int) | Bad(failure: Failure)

  function ItemOf(raw: string): Item {
    var entry := TrimSpace(raw);
    if entry == "" then Blank
    else if '=' !in entry then Bad(InvalidEntry(entry))
    else
      var cut := IndexOf(entry, '=');
      var name, idStr := entry[..cut], entry[cut + 1..];
      var id := Atoi(idStr);
      if id.None? || !ValidId(id.value) then Bad(InvalidId(idStr, name)) else Pair(name, id.value)
  }

  function ItemsOf(parts: seq<string>): (items: seq<Item>)
    ensures |items| == |parts| && forall i :: 0 <= i < |parts| ==> items[i] == ItemOf(parts[i])
  {
    seq(|parts|, i requires 0 <= i < |parts| => ItemOf(parts[i]))
  }

  /** The pairs in order, a later one of the same name winning; the first bad entry fails the whole. */
  function Collect(items: seq<Item>, ids: Ids): Result<Ids, Failure> {
    if items == [] then Ok(ids)
    else
      match items[0]
      case Blank => Collect(items[1..], ids)
      case Pair(name, id) => Collect(items[1..], ids[name := id])
      case Bad(failure) => Err(failure)
  }

  function Parsed(value: string): Result<Ids, Failure> {
    Collect(ItemsOf(Split(value, ',')), map[])
  }

  method ParseHostIds(value: string) returns (r: Result<Ids, Failure>)
    ensures r == Parsed(value)
  {
    var ids: Ids := map[];
    var entries := Split(value, ',');
    ghost var items := ItemsOf(entries);
    for i := 0 to |entries|
      invariant Collect(items, map[]) == Collect(items[i..], ids)
    {
      assert items[i..][0] == items[i] && items[i..][1..] == items[i + 1..];
      var item := ItemOf(entries[i]);
      match item {
        case Blank =>
        case Bad(failure) => return Err(failure);
        case Pair(name, id) => ids := ids[name := id];
      }
    }
    r := Ok(ids);
  }

  /** A part that says something, but no name with an id in range after its first equals sign. */
  predicate BadPart(raw: string) {
    var entry := TrimSpace(raw);
    entry != ""
    && ('=' !in entry
        || var id := Atoi(entry[IndexOf(entry, '=') + 1..]); id == None || id.value < 1 || id.value > 2000)
  }

  ghost predicate SomeBad(parts: seq<string>) {
    exists i :: 0 <= i < |parts| && BadPart(parts[i])
  }

  /** One bad part fails the whole value, and nothing else does. */
  lemma ParseFailsIff(value: string)
    ensures Parsed(value).Err? <==> SomeBad(Split(value, ','))
  {
    hide SomeBad;
    PartsFailIff(Split(value, ','));
  }

  lemma PartsFailIff(parts: seq<string>)
    ensures Collect(ItemsOf(parts), map[]).Err? <==> SomeBad(parts)
  {
    hide ItemOf, BadPart;
    var items := ItemsOf(parts);
    CollectFailsIff(items, map[]);
    forall i | 0 <= i < |parts|
      ensures items[i].Bad? <==> BadPart(parts[i])
    {
      BadItem(parts[i]);
    }
  }

  lemma BadItem(raw: string)
    ensures ItemOf(raw).Bad? <==> BadPart(raw)
  {
    hide TrimSpace, Atoi;
  }

  lemma {:induction false} CollectFailsIff(items: seq<Item>, ids: Ids)
    ensures Collect(items, ids).Err? <==> exists i :: 0 <= i < |items| && items[i].Bad?
  {
    if items != [] {
      CollectFailsIff(items[1..], if items[0].Pair? then ids[items[0].name := items[0].id] else ids);
      assert forall i :: 1 <= i < |items| ==> items[i] == items[1..][i - 1];
    }
  }

  /** Otherwise a name has the id its last entry gives it. */
  lemma ParsedHolds(value: string, name: string, id: int)
    requires Parsed(value).Ok?
    ensures (name in Parsed(value).value && Parsed(value).value[name] == id)
       <==> LastNamed(ItemsOf(Split(value, ',')), name, id)
  {
    hide ItemOf, LastNamed;
    var parts := Split(value, ',');
    var items := ItemsOf(parts);
    assert Parsed(value) == Collect(items, map[]);
    CollectHolds(items, map[], name, id);
  }

  ghost predicate LastNamed(items: seq<Item>, name: string, id: int) {
    exists i :: 0 <= i < |items| && items[i] == Pair(name, id) && NotNamedAfter(items, i, name)
  }

  ghost predicate NotNamedAfter(items: seq<Item>, i: int, name: string) {
    forall j :: i < j < |items| && 0 <= j ==> !(items[j].Pair? && items[j].name == name)
  }

  lemma {:induction false} CollectHolds(items: seq<Item>, acc: Ids, name: string, id: int)
    requires Collect(items, acc).Ok?
    ensures var ids := Collect(items, acc).value;
      (name in ids && ids[name] == id)
      <==> LastNamed(items, name, id) || (name in acc && acc[name] == id && NotNamedAfter(items, -1, name))
  {
    if items != [] {
      var rest := items[1..];
      var next := if items[0].Pair? then acc[items[0].name := items[0].id] else acc;
      CollectHolds(rest, next, name, id);
      assert forall i :: 1 <= i < |items| ==> items[i] == rest[i - 1];
      assert forall i :: -1 <= i < |rest| ==> (NotNamedAfter(rest, i, name) <==> NotNamedAfter(items, i + 1, name)) by {
        NotNamedInRest(items, name);
      }
      var ids := Collect(items, acc).value;
      if i :| 0 <= i < |rest| && rest[i] == Pair(name, id) && NotNamedAfter(rest, i, name) {
        assert items[i + 1] == Pair(name, id) && NotNamedAfter(items, i + 1, name);
      }
      if i :| 0 <= i < |items| && items[i] == Pair(name, id) && NotNamedAfter(items, i, name) {
        if i > 0 {
          assert rest[i - 1] == Pair(name, id) && NotNamedAfter(rest, i - 1, name);
        }
      }
    }
  }

  lemma NotNamedInRest(items: seq<Item>, name: string)
    requires items != []
    ensures forall i :: -1 <= i < |items| - 1 ==>
      (NotNamedAfter(items[1..], i, name) <==> NotNamedAfter(items, i + 1, name))
    ensures NotNamedAfter(items, -1, name)
       <==> NotNamedAfter(items, 0, name) && !(items[0].Pair? && items[0].name == name)
  {
    var rest := items[1..];
    forall i | -1 <= i < |items| - 1
      ensures NotNamedAfter(rest, i, name) <==> NotNamedAfter(items, i + 1, name)
    {
      assert forall j :: 0 <= j < |rest| ==> rest[j] == items[j + 1];
      assert forall j :: 1 <= j < |items| ==> items[j] == rest[j - 1];
    }
  }

  function EntryOf(name: string, id: int): string {
    name + "=" + FormatInt(id)
  }

  function EntriesOf(names: seq<string>, ids: Ids): (parts: seq<string>)
    requires forall n :: n in names ==> n in ids
    ensures |parts| == |names| && forall i :: 0 <= i < |names| ==> parts[i] == EntryOf(names[i], ids[names[i]])
  {
    seq(|names|, i requires 0 <= i < |names| => EntryOf(names[i], ids[names[i]]))
  }

  /** The names in the order they are written: each once, by id. */
  ghost predicate Listing(ids: Ids, names: seq<string>) {
    ById(ids, names) && forall n :: n in ids ==> n in names
  }

  ghost predicate ById(ids: Ids, names: seq<string>) {
    && (forall n :: n in names ==> n in ids)
    && (forall i, j :: 0 <= i < j < |names| ==> names[i] != names[j])
    && (forall i, j :: 0 <= i < j < |names| ==> ids[names[i]] <= ids[names[j]])
  }

  ghost predicate IsFormat(ids: Ids, value: string) {
    exists names :: Listing(ids, names) && value == Join(EntriesOf(names, ids), ',')
  }

  function InsertById(x: string, names: seq<string>, ids: Ids): (r: seq<string>)
    requires x in ids && forall n :: n in names ==> n in ids
    ensures forall n :: n in r <==> n == x || n in names
  {
    if names == [] || ids[x] <= ids[names[0]] then [x] + names
    else
      assert names == [names[0]] + names[1..];
      [names[0]] + InsertById(x, names[1..], ids)
  }

  lemma {:induction false} InsertByIdOrders(x: string, names: seq<string>, ids: Ids)
    requires x in ids && x !in names && ById(ids, names)
    ensures ById(ids, InsertById(x, names, ids))
  {
    if names != [] && ids[x] > ids[names[0]] {
      InsertByIdOrders(x, names[1..], ids);
      var rest := InsertById(x, names[1..], ids);
      assert InsertById(x, names, ids) == [names[0]] + rest;
      forall j | 0 <= j < |rest|
        ensures names[0] != rest[j] && ids[names[0]] <= ids[rest[j]]
      {
        assert rest[j] == x || rest[j] in names[1..];
      }
    } else {
      assert InsertById(x, names, ids) == [x] + names;
    }
  }

  /** Members come out of the map in any order; sorting by id decides where each goes. */
  method FormatHostIds(ids: Ids) returns (value: string)
    ensures IsFormat(ids, value)
  {
    hide Listing, ById, EntryOf;
    var names := NamesById(ids);
    var parts: seq<string> := [];
    for i := 0 to |names|
      invariant parts == EntriesOf(names, ids)[..i]
    {
      parts := parts + [EntryOf(names[i], ids[names[i]])];
    }
    assert parts == EntriesOf(names, ids);
    value := Join(parts, ',');
  }

  /** The names by ascending id, in any order where ids are equal. */
  method NamesById(ids: Ids) returns (names: seq<string>)
    ensures Listing(ids, names) && ById(ids, names) && forall n :: n in names ==> n in ids
  {
    names := [];
    var rest := ids.Keys;
    while rest != {}
      invariant rest <= ids.Keys
      invariant ById(ids, names) && forall n :: n in names <==> n in ids.Keys - rest
      decreases |rest|
    {
      var name :| name in rest;
      InsertByIdOrders(name, names, ids);
      names := InsertById(name, names, ids);
      rest := rest - {name};
    }
    assert Listing(ids, names);
  }

  /** Names the format can carry: no comma, no equals sign, no leading space. */
  predicate CleanName(n: string) {
    ',' !in n && '=' !in n && (n == "" || !IsSpace(n[0]))
  }

  ghost predicate Clean(ids: Ids) {
    forall n :: n in ids ==> CleanName(n) && ValidId(ids[n])
  }

  lemma ItemOfEntry(n: string, id: int)
    requires CleanName(n) && ValidId(id)
    ensures ItemOf(EntryOf(n, id)) == Pair(n, id) && ',' !in EntryOf(n, id)
  {
    var digits := FormatInt(id);
    var entry := EntryOf(n, id);
    AtoiOfFormat(id);
    assert entry[|entry| - 1] == digits[|digits| - 1] && IsDigit(digits[|digits| - 1]);
    hide TrimSpace, Atoi, Decimal, FormatInt;
    assert entry[0] == if n == "" then '=' else n[0];
    TrimNothing(entry);
    IndexOfFirst(n, '=', digits);
    assert entry[..|n|] == n && entry[|n| + 1..] == digits;
    forall i | 0 <= i < |digits|
      ensures digits[i] != ','
    {
      assert IsDigit(digits[i]);
    }
  }

  /** `r` is `acc` with these names' ids put in. */
  ghost predicate WithNames(acc: Ids, names: seq<string>, ids: Ids, r: Ids)
    requires forall n :: n in names ==> n in ids
  {
    forall k :: (k in r <==> k in acc || k in names) && (k in r ==> r[k] == if k in names then ids[k] else acc[k])
  }

  lemma {:induction false} CollectListing(items: seq<Item>, names: seq<string>, ids: Ids, acc: Ids)
    requires forall n :: n in names ==> n in ids
    requires |items| == |names| && forall i :: 0 <= i < |names| ==> items[i] == Pair(names[i], ids[names[i]])
    ensures Collect(items, acc).Ok? && WithNames(acc, names, ids, Collect(items, acc).value)
  {
    if names != [] {
      var n := names[0];
      assert names == [n] + names[1..];
      assert items[0] == Pair(n, ids[n]);
      CollectListing(items[1..], names[1..], ids, acc[n := ids[n]]);
    }
  }

  lemma ItemIsClean(raw: string)
    requires ',' !in raw && ItemOf(raw).Pair?
    ensures CleanName(ItemOf(raw).name) && ValidId(ItemOf(raw).id)
  {
    var entry := TrimSpace(raw);
    var cut := IndexOf(entry, '=');
    assert cut > 0 ==> entry[..cut][0] == entry[0];
  }

  lemma {:induction false} CollectIsClean(items: seq<Item>, ids: Ids)
    requires Clean(ids) && Collect(items, ids).Ok?
    requires forall i :: 0 <= i < |items| && items[i].Pair? ==> CleanName(items[i].name) && ValidId(items[i].id)
    ensures Clean(Collect(items, ids).value)
  {
    if items != [] {
      CollectIsClean(items[1..], if items[0].Pair? then ids[items[0].name := items[0].id] else ids);
    }
  }

  /** Whatever parses holds clean names and ids in range. */
  lemma ParsedIsClean(value: string)
    requires Parsed(value).Ok?
    ensures Clean(Parsed(value).value)
  {
    var parts := Split(value, ',');
    var items := ItemsOf(parts);
    JoinOfSplit(value, ',');
    forall i | 0 <= i < |items| && items[i].Pair?
      ensures CleanName(items[i].name) && ValidId(items[i].id)
    {
      ItemIsClean(parts[i]);
    }
    CollectIsClean(items, map[]);
  }

  /** Reading back what was written gives the same ids exactly when the names are clean and the ids in range. */
  lemma RoundTripIffClean(ids: Ids, value: string)
    requires IsFormat(ids, value)
    ensures Parsed(value) == Ok(ids) <==> Clean(ids)
  {
    if Clean(ids) {
      var names :| Listing(ids, names) && value == Join(EntriesOf(names, ids), ',');
      CleanListingParses(ids, names);
    } else if Parsed(value).Ok? {
      ParsedIsClean(value);
    }
  }

  lemma CollectsAll(items: seq<Item>, names: seq<string>, ids: Ids)
    requires forall n :: n in names <==> n in ids
    requires |items| == |names| && forall i :: 0 <= i < |names| ==> items[i] == Pair(names[i], ids[names[i]])
    ensures Collect(items, map[]) == Ok(ids)
  {
    CollectListing(items, names, ids, map[]);
    var r := Collect(items, map[]).value;
    assert WithNames(map[], names, ids, r);
    assert r == ids;
  }

  lemma CleanListingParses(ids: Ids, names: seq<string>)
    requires Clean(ids) && Listing(ids, names)
    ensures Parsed(Join(EntriesOf(names, ids), ',')) == Ok(ids)
  {
    var parts := EntriesOf(names, ids);
    if parts == [] {
      EmptyParses();
      assert ids == map[];
    } else {
      forall i | 0 <= i < |parts|
        ensures ',' !in parts[i] && ItemOf(parts[i]) == Pair(names[i], ids[names[i]])
      {
        ItemOfEntry(names[i], ids[names[i]]);
      }
      SplitOfJoin(parts, ',');
      CollectsAll(ItemsOf(parts), names, ids);
    }
  }

  lemma EmptyParses()
    ensures Parsed("") == Ok(map[])
  {
    var parts := Split("", ',');
    assert parts == [""];
    assert ItemsOf(parts)[0] == Blank && ItemsOf(parts)[1..] == [];
  }

  // ----- Handing out ids -----

  /** The highest id ever handed out, or 0. */
  ghost predicate IsHighest(ids: Ids, h: int) {
    && h >= 0
    && (forall n :: n in ids ==> ids[n] <= h)
    && (h == 0 || exists n :: n in ids && ids[n] == h)
  }

  function AssignFrom(out: Ids, highest: int, names: seq<string>): Result<Ids, Failure>
    decreases |names|
  {
    if names == [] then Ok(out)
    else if names[0] in out then AssignFrom(out, highest, names[1..])
    else if highest + 1 > MAX_HOST_ID then Err(NoIdLeft(names[0]))
    else AssignFrom(out[names[0] := highest + 1], highest + 1, names[1..])
  }

  ghost predicate Assigns(existing: Ids, members: seq<string>, r: Result<Ids, Failure>) {
    exists h :: IsHighest(existing, h) && r == AssignFrom(existing, h, Sorted(members))
  }

  method AssignHostIds(existing: Ids, members: seq<string>) returns (r: Result<Ids, Failure>)
    ensures Assigns(existing, members, r)
  {
    var out: Ids := map[];
    var highest := 0;
    var rest := existing.Keys;
    while rest != {}
      invariant rest <= existing.Keys && out == map n | n in existing && n !in rest :: existing[n]
      invariant IsHighest(out, highest)
      decreases |rest|
    {
      var name :| name in rest;
      out := out[name := existing[name]];
      assert out[name] == existing[name];
      highest := if existing[name] > highest then existing[name] else highest;
      rest := rest - {name};
    }
    assert out == existing;
    ghost var h := highest;
    var sorted := Sorted(members);
    for i := 0 to |sorted|
      invariant AssignFrom(existing, h, sorted) == AssignFrom(out, highest, sorted[i..])
    {
      assert sorted[i..][0] == sorted[i] && sorted[i..][1..] == sorted[i + 1..];
      if sorted[i] in out {
        continue;
      }
      highest := highest + 1;
      if highest > MAX_HOST_ID {
        return Err(NoIdLeft(sorted[i]));
      }
      out := out[sorted[i] := highest];
    }
    r := Ok(out);
  }

  /** The members without an id yet. */
  ghost function NewNames(ids: Ids, names: seq<string>): set<string> {
    set n | n in names && n !in ids
  }

  /** Handing out in order fails exactly when the new names do not fit above the highest id. */
  lemma {:induction false} AssignFails(out: Ids, highest: int, names: seq<string>)
    requires highest >= 0
    ensures var newcomers := NewNames(out, names);
      AssignFrom(out, highest, names).Ok? <==> newcomers == {} || highest + |newcomers| <= MAX_HOST_ID
    decreases |names|
  {
    if names != [] {
      var n := names[0];
      if n in out {
        KnownName(out, names);
        AssignFails(out, highest, names[1..]);
      } else {
        OneNewName(out, names, highest + 1);
        AssignFails(out[n := highest + 1], highest + 1, names[1..]);
      }
    }
  }

  /** And otherwise existing ids stay, and new names get the next ids up. */
  lemma {:induction false} AssignExtends(out: Ids, highest: int, names: seq<string>, newcomers: set<string>, r: Ids)
    requires highest >= 0 && AssignFrom(out, highest, names) == Ok(r) && newcomers == NewNames(out, names)
    ensures Extends(out, highest, newcomers, r)
    decreases |names|
  {
    if names == [] {
      assert newcomers == {};
      ExtendsByNone(out, highest, newcomers);
    } else if names[0] in out {
      KnownName(out, names);
      AssignExtends(out, highest, names[1..], newcomers, r);
    } else {
      AssignExtendsMore(out, highest, names, newcomers, r);
    }
  }

  lemma ExtendsByNone(out: Ids, highest: int, newcomers: set<string>)
    requires newcomers == {}
    ensures Extends(out, highest, newcomers, out)
  {
  }

  lemma AssignExtendsMore(out: Ids, highest: int, names: seq<string>, newcomers: set<string>, r: Ids)
    requires highest >= 0 && AssignFrom(out, highest, names) == Ok(r) && newcomers == NewNames(out, names)
    requires names != [] && names[0] !in out
    ensures Extends(out, highest, newcomers, r)
    decreases |names|, 0
  {
    hide Extends, NewNames, AssignFrom;
    AssignsNext(out, highest, names, r);
    var n, rest := names[0], names[1..];
    var more := out[n := highest + 1];
    var later := NewNames(more, rest);
    OneNewName(out, names, highest + 1);
    AssignExtends(more, highest + 1, rest, later, r);
    ExtendsMore(out, more, highest, newcomers, later, n, r);
  }

  lemma AssignsNext(out: Ids, highest: int, names: seq<string>, r: Ids)
    requires AssignFrom(out, highest, names) == Ok(r) && names != [] && names[0] !in out
    ensures AssignFrom(out[names[0] := highest + 1], highest + 1, names[1..]) == Ok(r)
  {
  }

  lemma KnownName(out: Ids, names: seq<string>)
    requires names != [] && names[0] in out
    ensures NewNames(out, names) == NewNames(out, names[1..])
  {
    assert names == [names[0]] + names[1..];
  }

  /** What assigning adds: new ids above the highest, as many as there are new names, each to one name. */
  ghost predicate Extends(out: Ids, highest: int, newcomers: set<string>, r: Ids) {
    && r.Keys == out.Keys + newcomers
    && (forall n :: n in out ==> r[n] == out[n])
    && (forall n :: n in newcomers ==> highest < r[n] <= highest + |newcomers|)
    && (forall n, m :: n in newcomers && m in newcomers && r[n] == r[m] ==> n == m)
  }

  lemma ExtendsMore(out: Ids, more: Ids, highest: int, newcomers: set<string>, later: set<string>, n: string, r: Ids)
    requires n !in out && more == out[n := highest + 1]
    requires newcomers == later + {n} && |newcomers| == |later| + 1
    requires Extends(more, highest + 1, later, r)
    ensures Extends(out, highest, newcomers, r)
  {
    assert forall m :: m in more ==> m in r && r[m] == more[m];
    KeptByOneMore(out, n, highest + 1, r);
    KeysOfOneMore(out, newcomers, later, n, highest + 1, r);
    OneMoreId(newcomers, later, highest, |later|, n, r);
  }

  lemma KeysOfOneMore(out: Ids, newcomers: set<string>, later: set<string>, n: string, id: int, r: Ids)
    requires n !in out && newcomers == later + {n} && r.Keys == out[n := id].Keys + later
    ensures r.Keys == out.Keys + newcomers
  {
    assert out[n := id].Keys == out.Keys + {n};
  }

  lemma KeptByOneMore(out: Ids, n: string, id: int, r: Ids)
    requires n !in out
    requires forall m :: m in out[n := id] ==> m in r && r[m] == out[n := id][m]
    ensures n in r && r[n] == id && forall m :: m in out ==> m in r && r[m] == out[m]
  {
    assert n in out[n := id];
    forall m | m in out
      ensures m in r && r[m] == out[m]
    {
      assert m in out[n := id];
    }
  }

  lemma OneMoreId(newcomers: set<string>, later: set<string>, highest: int, count: int, n: string, r: Ids)
    requires newcomers == later + {n} && count >= 0
    requires forall m :: m in newcomers ==> m in r
    requires r[n] == highest + 1
    requires forall m :: m in later ==> highest + 1 < r[m] <= highest + 1 + count
    requires forall a, b :: a in later && b in later && r[a] == r[b] ==> a == b
    ensures forall m :: m in newcomers ==> highest < r[m] <= highest + count + 1
    ensures forall a, b :: a in newcomers && b in newcomers && r[a] == r[b] ==> a == b
  {
  }

  lemma OneNewName(out: Ids, names: seq<string>, id: int)
    requires names != [] && names[0] !in out
    ensures var n := names[0];
      var later := NewNames(out[n := id], names[1..]);
      NewNames(out, names) == later + {n} && n !in later && |NewNames(out, names)| == |later| + 1
  {
    assert names == [names[0]] + names[1..];
    assert NewNames(out, names) == NewNames(out[names[0] := id], names[1..]) + {names[0]};
  }

  ghost predicate Distinct(ids: Ids) {
    forall n, m :: n in ids && m in ids && ids[n] == ids[m] ==> n == m
  }

  lemma AssignsSorted(existing: Ids, members: seq<string>, r: Result<Ids, Failure>, h: int)
    requires Assigns(existing, members, r) && IsHighest(existing, h)
    ensures r == AssignFrom(existing, h, Sorted(members))
    ensures NewNames(existing, Sorted(members)) == NewNames(existing, members)
  {
    hide AssignFrom, Sorted;
    SameMembers(Sorted(members), members);
  }

  /** Assigning fails exactly when there are new members and the highest id plus their number exceeds the bound. */
  lemma AssignFailsWhenIdsRunOut(existing: Ids, members: seq<string>, r: Result<Ids, Failure>, h: int)
    requires Assigns(existing, members, r) && IsHighest(existing, h)
    ensures var newcomers := NewNames(existing, members); r.Ok? <==> newcomers == {} || h + |newcomers| <= MAX_HOST_ID
  {
    AssignsSorted(existing, members, r, h);
    AssignFails(existing, h, Sorted(members));
  }

  /**
   Otherwise every member has an id, everyone keeps theirs, and new ids are above every old one,
   distinct and in range.
   */
  lemma AssignKeepsIds(existing: Ids, members: seq<string>, r: Ids, h: int)
    requires Assigns(existing, members, Ok(r)) && IsHighest(existing, h)
    ensures Extends(existing, h, NewNames(existing, members), r)
    ensures forall n :: n in NewNames(existing, members) ==> ValidId(r[n])
    ensures Distinct(existing) ==> Distinct(r)
  {
    AssignsSorted(existing, members, Ok(r), h);
    AssignExtends(existing, h, Sorted(members), NewNames(existing, members), r);
    AssignFails(existing, h, Sorted(members));
    DistinctExtends(existing, h, NewNames(existing, members), r);
  }

  lemma DistinctExtends(existing: Ids, h: int, newcomers: set<string>, r: Ids)
    requires Extends(existing, h, newcomers, r) && forall n :: n in existing ==> existing[n] <= h
    requires newcomers !! existing.Keys
    ensures Distinct(existing) ==> Distinct(r)
  {
  }

  // ----- Whole runs on the stored string -----

  /** Setting up a pool: read the value, assign, write it back; on any failure it stays as it was. */
  ghost predicate Updates(stored: string, members: seq<string>, next: string) {
    || (exists r :: Parsed(stored).Ok? && Assigns(Parsed(stored).value, members, Ok(r)) && IsFormat(r, next))
    || ((Parsed(stored).Err? || exists e :: Assigns(Parsed(stored).value, members, Err(e))) && next == stored)
  }

  ghost predicate IsRun(values: seq<string>, members: seq<seq<string>>) {
    && |values| == |members| + 1
    && values[0] == ""
    && forall i {:trigger members[i]} :: 0 <= i < |members| ==> Updates(values[i], members[i], values[i + 1])
  }

  /** What a value parsed to is good when it parsed, with no id twice. */
  ghost predicate Good(read: Result<Ids, Failure>) {
    read.Ok? && Distinct(read.value)
  }

  ghost predicate Grows(a: Ids, b: Ids) {
    forall n :: n in a ==> n in b && b[n] == a[n]
  }

  /** From one good reading to the next, nobody's id changes. */
  ghost predicate GoodStep(before: Result<Ids, Failure>, after: Result<Ids, Failure>) {
    Good(before) ==> Good(after) && Grows(before.value, after.value)
  }

  lemma UpdateKeepsGood(stored: string, members: seq<string>, next: string)
    requires Updates(stored, members, next) && forall n :: n in members ==> CleanName(n)
    ensures GoodStep(Parsed(stored), Parsed(next))
  {
    if Good(Parsed(stored)) {
      var ids := Parsed(stored).value;
      ParsedIsClean(stored);
      if r :| Assigns(ids, members, Ok(r)) && IsFormat(r, next) {
        AssignedIsClean(ids, members, r);
        RoundTripIffClean(r, next);
      }
    }
  }

  lemma AssignedIsClean(ids: Ids, members: seq<string>, r: Ids)
    requires Assigns(ids, members, Ok(r)) && Clean(ids) && forall n :: n in members ==> CleanName(n)
    ensures Clean(r) && Grows(ids, r) && (Distinct(ids) ==> Distinct(r))
  {
    var h :| IsHighest(ids, h) && Ok(r) == AssignFrom(ids, h, Sorted(members));
    AssignKeepsIds(ids, members, r, h);
  }

  /** The readings of a run. */
  ghost predicate Reads(values: seq<string>, read: seq<Result<Ids, Failure>>) {
    |read| == |values| && forall k :: 0 <= k < |values| ==> read[k] == Parsed(values[k])
  }

  ghost predicate AllClean(members: seq<seq<string>>) {
    forall k, n :: 0 <= k < |members| && n in members[k] ==> CleanName(n)
  }

  ghost predicate AllValid(ids: Ids) {
    forall n :: n in ids ==> ValidId(ids[n])
  }

  /** A name known at both times with the same id is one name. */
  ghost predicate NeverShared(a: Ids, b: Ids) {
    forall n, m :: n in a && m in b && a[n] == b[m] ==> n == m
  }

  lemma RunStep(values: seq<string>, members: seq<seq<string>>, read: seq<Result<Ids, Failure>>, k: nat)
    requires IsRun(values, members) && Reads(values, read) && k < |members|
    requires forall n :: n in members[k] ==> CleanName(n)
    ensures GoodStep(read[k], read[k + 1])
  {
    UpdateKeepsGood(values[k], members[k], values[k + 1]);
  }

  lemma {:induction false} GoodThroughout(read: seq<Result<Ids, Failure>>, i: nat, j: nat)
    requires i <= j < |read| && Good(read[0])
    requires forall k :: 0 <= k < |read| - 1 ==> GoodStep(read[k], read[k + 1])
    ensures Good(read[i]) && Good(read[j]) && Grows(read[i].value, read[j].value)
    decreases j
  {
    if j > 0 {
      assert GoodStep(read[j - 1], read[j - 1 + 1]);
      if i < j {
        GoodThroughout(read, i, j - 1);
      } else {
        GoodThroughout(read, j - 1, j - 1);
      }
    }
  }

  /** Over every run the value parses, a name keeps its id for good, and no id ever goes to a second name. */
  lemma IdsAreForever(values: seq<string>, members: seq<seq<string>>, read: seq<Result<Ids, Failure>>, i: nat, j: nat)
    requires IsRun(values, members) && Reads(values, read) && i <= j < |values|
    requires AllClean(members)
    ensures read[i].Ok? && read[j].Ok?
    ensures Grows(read[i].value, read[j].value) && AllValid(read[i].value)
    ensures NeverShared(read[i].value, read[j].value)
  {
    hide Parsed, IsRun, CleanName;
    RunIsGood(values, members, read, i, j);
    ParsedIsClean(values[i]);
    DistinctAcross(read[i].value, read[j].value);
  }

  lemma RunIsGood(values: seq<string>, members: seq<seq<string>>, read: seq<Result<Ids, Failure>>, i: nat, j: nat)
    requires IsRun(values, members) && Reads(values, read) && i <= j < |values|
    requires AllClean(members)
    ensures Good(read[i]) && Good(read[j]) && Grows(read[i].value, read[j].value)
  {
    hide Parsed, Updates, CleanName;
    EmptyParses();
    forall k | 0 <= k < |read| - 1
      ensures GoodStep(read[k], read[k + 1])
    {
      RunStep(values, members, read, k);
    }
    GoodThroughout(read, i, j);
  }

  lemma DistinctAcross(a: Ids, b: Ids)
    requires Grows(a, b) && Distinct(b)
    ensures NeverShared(a, b)
  {
  }
}
