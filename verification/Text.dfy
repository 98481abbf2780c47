/**
 The string operations both services lean on: splitting and joining on a
 separator, cutting at the first separator, trimming, and replacing a first
 occurrence, with the laws that relate them.
 */
module Text {

  datatype Option<+T> = None | Some(value: T)

  datatype Result<+T, +E> = Ok(value: T) | Err(error: E)

  /** The first index of `c`. */
  function IndexOf(s: string, c: char): (i: nat)
    requires c in s
    ensures i < |s| && s[i] == c && c !in s[..i]
  {
    if s[0] == c then 0 else 1 + IndexOf(s[1..], c)
  }

  lemma {:induction false} IndexOfUnique(s: string, c: char, j: nat)
    requires j < |s| && s[j] == c && c !in s[..j]
    ensures IndexOf(s, c) == j
  {
    if j > 0 {
      assert s[0] == s[..j][0];
      assert s[1..][..j - 1] == s[..j][1..];
      IndexOfUnique(s[1..], c, j - 1);
    }
  }

  /** `a` followed by a separator: the first separator is the one after `a`. */
  lemma IndexOfFirst(a: string, c: char, b: string)
    requires c !in a
    ensures c in a + [c] + b && IndexOf(a + [c] + b, c) == |a|
  {
    var s := a + [c] + b;
    assert s[|a|] == c && s[..|a|] == a;
    IndexOfUnique(s, c, |a|);
  }

  /** What comes before the first separator is determined, and so is what comes after it. */
  lemma CutAt(a: string, b: string, c: string, d: string, sep: char)
    requires sep !in a && sep !in c && a + [sep] + b == c + [sep] + d
    ensures a == c && b == d
  {
    IndexOfFirst(a, sep, b);
    IndexOfFirst(c, sep, d);
    assert a == (a + [sep] + b)[..|a|] && c == (c + [sep] + d)[..|c|];
    assert b == (a + [sep] + b)[|a| + 1..] && d == (c + [sep] + d)[|c| + 1..];
  }

  lemma CutAtSlash(a: string, b: string, c: string, d: string)
    requires '/' !in a && '/' !in c && a + "/" + b == c + "/" + d
    ensures a == c && b == d
  {
    CutAt(a, b, c, d, '/');
  }

  function Split(s: string, sep: char): (parts: seq<string>)
    ensures |parts| >= 1
  {
    if sep !in s then [s]
    else var i := IndexOf(s, sep); [s[..i]] + Split(s[i + 1..], sep)
  }

  function Join(parts: seq<string>, sep: char): string
  {
    if |parts| == 0 then "" else if |parts| == 1 then parts[0]
    else parts[0] + [sep] + Join(parts[1..], sep)
  }

  ghost predicate SepFree(parts: seq<string>, sep: char) {
    forall i :: 0 <= i < |parts| ==> sep !in parts[i]
  }

  /** Joining undoes splitting, and no part holds the separator. */
  lemma {:induction false} JoinOfSplit(s: string, sep: char)
    ensures Join(Split(s, sep), sep) == s
    ensures SepFree(Split(s, sep), sep)
    decreases |s|
  {
    if sep in s {
      var i := IndexOf(s, sep);
      JoinOfSplit(s[i + 1..], sep);
      assert Split(s, sep)[1..] == Split(s[i + 1..], sep);
      assert s == s[..i] + [sep] + s[i + 1..];
    }
  }

  lemma SplitOfFree(s: string, sep: char)
    requires sep !in s
    ensures Split(s, sep) == [s]
  {
  }

  /** A part without the separator, the separator, and the rest. */
  lemma SplitAfter(a: string, rest: string, sep: char)
    requires sep !in a
    ensures Split(a + [sep] + rest, sep) == [a] + Split(rest, sep)
  {
    var s := a + [sep] + rest;
    IndexOfFirst(a, sep, rest);
    assert s[..|a|] == a && s[|a| + 1..] == rest;
  }

  lemma SplitConcatStep(head: string, rest: string, b: string, sep: char)
    requires sep !in head && Split(rest + [sep] + b, sep) == Split(rest, sep) + Split(b, sep)
    ensures Split((head + [sep] + rest) + [sep] + b, sep) == Split(head + [sep] + rest, sep) + Split(b, sep)
  {
    hide Split;
    SplitAfter(head, rest, sep);
    SplitAfter(head, rest + [sep] + b, sep);
    assert (head + [sep] + rest) + [sep] + b == head + [sep] + (rest + [sep] + b);
    assert [head] + (Split(rest, sep) + Split(b, sep)) == ([head] + Split(rest, sep)) + Split(b, sep);
  }

  lemma {:induction false} SplitConcat(a: string, b: string, sep: char)
    ensures Split(a + [sep] + b, sep) == Split(a, sep) + Split(b, sep)
    decreases |a|
  {
    hide Split;
    if sep !in a {
      SplitOfFree(a, sep);
      SplitAfter(a, b, sep);
    } else {
      var i := IndexOf(a, sep);
      var head, rest := a[..i], a[i + 1..];
      SplitConcat(rest, b, sep);
      SplitConcatStep(head, rest, b, sep);
      assert a == head + [sep] + rest;
    }
  }

  /** Splitting undoes joining when no part holds the separator. */
  lemma {:induction false} SplitOfJoin(parts: seq<string>, sep: char)
    requires |parts| >= 1 && SepFree(parts, sep)
    ensures Split(Join(parts, sep), sep) == parts
    decreases |parts|
  {
    hide Split;
    if |parts| == 1 {
      SplitOfFree(parts[0], sep);
    } else {
      SplitOfJoin(parts[1..], sep);
      SplitAfter(parts[0], Join(parts[1..], sep), sep);
      assert parts == [parts[0]] + parts[1..];
    }
  }

  predicate StartsWith(s: string, prefix: string) {
    |prefix| <= |s| && s[..|prefix|] == prefix
  }

  lemma DropOfConcat(a: string, b: string, n: nat)
    requires n <= |a|
    ensures (a + b)[n..] == a[n..] + b
  {
  }

  /** Where `pat` first occurs. */
  function Find(s: string, pat: string): (i: Option<nat>)
    ensures i.Some? ==> i.value + |pat| <= |s|
  {
    if StartsWith(s, pat) then Some(0)
    else if s == "" then None
    else
      var rest := Find(s[1..], pat);
      if rest.Some? then Some(rest.value + 1) else None
  }

  /** JavaScript's `s.replace(pat, with)` for a plain string pattern: the first occurrence only. */
  function ReplaceFirst(s: string, pat: string, with: string): string {
    var i := Find(s, pat);
    if i.None? then s else Splice(s, i.value, |pat|, with)
  }

  function Splice(s: string, at: nat, n: nat, with: string): string
    requires at + n <= |s|
  {
    s[..at] + with + s[at + n..]
  }

  lemma StartsWithAt(s: string, pat: string, k: nat)
    requires StartsWith(s, pat) && k < |pat|
    ensures s[k] == pat[k] && pat[k] in s
  {
    assert s[..|pat|][k] == s[k];
  }

  lemma NotAtHead(s: string, pat: string)
    requires s != "" && pat != "" && s[0] != pat[0]
    ensures !StartsWith(s, pat)
  {
    assert |pat| <= |s| ==> s[..|pat|][0] == s[0];
  }

  /** A pattern that starts with `c` is found only after any run without `c`. */
  lemma {:induction false} FindAfter(a: string, rest: string, pat: string, c: char)
    requires c !in a && |pat| >= 1 && pat[0] == c
    ensures Find(a + rest, pat) == match Find(rest, pat) case None => None case Some(i) => Some(|a| + i)
  {
    if a == "" {
      assert a + rest == rest;
    } else {
      var s := a + rest;
      DropOfConcat(a, rest, 1);
      assert s[0] == a[0] && a[0] != c;
      NotAtHead(s, pat);
      FindAfter(a[1..], rest, pat, c);
    }
  }

  lemma ReplaceAfter(a: string, rest: string, pat: string, with: string, c: char)
    requires c !in a && |pat| >= 1 && pat[0] == c
    ensures ReplaceFirst(a + rest, pat, with) == a + ReplaceFirst(rest, pat, with)
  {
    FindAfter(a, rest, pat, c);
    var i := Find(rest, pat);
    if i.Some? {
      SpliceAfter(a, rest, i.value, |pat|, with);
    }
  }

  lemma SpliceAfter(a: string, rest: string, at: nat, n: nat, with: string)
    requires at + n <= |rest|
    ensures Splice(a + rest, |a| + at, n, with) == a + Splice(rest, at, n, with)
  {
    assert (a + rest)[..|a| + at] == a + rest[..at];
    assert (a + rest)[|a| + at + n..] == rest[at + n..];
  }

  lemma ReplaceAtHead(pat: string, rest: string, with: string)
    ensures ReplaceFirst(pat + rest, pat, with) == with + rest
  {
    assert (pat + rest)[..|pat|] == pat;
  }

  lemma {:induction false} NoOccurrence(s: string, pat: string, k: nat)
    requires k < |pat| && pat[k] !in s
    ensures Find(s, pat).None?
  {
    if StartsWith(s, pat) {
      StartsWithAt(s, pat, k);
    } else if s != "" {
      NoOccurrence(s[1..], pat, k);
    }
  }

  /** The last index of `c`, or -1. */
  function LastIndexOf(s: string, c: char): (i: int)
    ensures -1 <= i < |s|
    ensures i >= 0 ==> s[i] == c && c !in s[i + 1..]
    ensures i < 0 ==> c !in s
  {
    if s == "" then -1
    else
      var rest := LastIndexOf(s[1..], c);
      assert s == [s[0]] + s[1..];
      if rest >= 0 then rest + 1 else if s[0] == c then 0 else -1
  }

  lemma {:induction false} LastIndexOfUnique(s: string, c: char, j: nat)
    requires j < |s| && s[j] == c && c !in s[j + 1..]
    ensures LastIndexOf(s, c) == j
  {
    if j > 0 {
      assert s[1..][j..] == s[j + 1..];
      LastIndexOfUnique(s[1..], c, j - 1);
    }
  }

  lemma LastIndexOfLast(a: string, c: char, b: string)
    requires c !in b
    ensures LastIndexOf(a + [c] + b, c) == |a|
  {
    assert (a + [c] + b)[|a| + 1..] == b;
    LastIndexOfUnique(a + [c] + b, c, |a|);
  }

  /** Unicode white space, as Go's strings.TrimSpace sees it. */
  predicate IsSpace(c: char) {
    || c == ' ' || '\t' <= c <= '\r'
    || c == '\U{85}' || c == '\U{A0}' || c == '\U{1680}' || '\U{2000}' <= c <= '\U{200A}'
    || c == '\U{2028}' || c == '\U{2029}' || c == '\U{202F}' || c == '\U{205F}' || c == '\U{3000}'
  }

  function TrimLeft(s: string): (r: string)
    ensures r == "" || !IsSpace(r[0])
    ensures |r| <= |s| && r == s[|s| - |r|..]
  {
    if s != "" && IsSpace(s[0]) then TrimLeft(s[1..]) else s
  }

  function TrimRight(s: string): (r: string)
    ensures r == "" || !IsSpace(r[|r| - 1])
    ensures |r| <= |s| && r == s[..|r|]
  {
    if s != "" && IsSpace(s[|s| - 1]) then TrimRight(s[..|s| - 1]) else s
  }

  function TrimSpace(s: string): (r: string)
    ensures r == "" || (!IsSpace(r[0]) && !IsSpace(r[|r| - 1]))
    ensures forall c :: c in r ==> c in s
  {
    var left := TrimLeft(s);
    var r := TrimRight(left);
    assert r != "" ==> r[0] == left[0];
    r
  }

  /** Trimming leaves nothing exactly of what is all space. */
  lemma TrimsToNothing(s: string)
    ensures TrimSpace(s) == "" <==> forall c :: c in s ==> IsSpace(c)
  {
    TrimLeftSkips(s);
    var left := TrimLeft(s);
    TrimRightKeeps(left);
    assert forall c :: c in left ==> c in s;
  }

  lemma {:induction false} TrimLeftSkips(s: string)
    ensures TrimLeft(s) == "" <==> forall c :: c in s ==> IsSpace(c)
  {
    if s != "" {
      assert s == [s[0]] + s[1..];
      TrimLeftSkips(s[1..]);
    }
  }

  lemma {:induction false} TrimRightKeeps(s: string)
    requires s == "" || !IsSpace(s[0])
    ensures TrimRight(s) == "" <==> s == ""
  {
    if s != "" && IsSpace(s[|s| - 1]) {
      assert s[..|s| - 1][0] == s[0];
      TrimRightKeeps(s[..|s| - 1]);
    }
  }

  lemma TrimNothing(s: string)
    requires s != "" && !IsSpace(s[0]) && !IsSpace(s[|s| - 1])
    ensures TrimSpace(s) == s
  {
  }

  /** Lexicographic order, as Go and JavaScript compare strings. */
  predicate Leq(a: string, b: string) {
    a == "" || (b != "" && (a[0] < b[0] || (a[0] == b[0] && Leq(a[1..], b[1..]))))
  }

  lemma {:induction false} LeqTotal(a: string, b: string)
    ensures Leq(a, b) || Leq(b, a)
    ensures Leq(a, b) && Leq(b, a) ==> a == b
  {
    if a != "" && b != "" {
      LeqTotal(a[1..], b[1..]);
      assert a == [a[0]] + a[1..] && b == [b[0]] + b[1..];
    }
  }

  lemma {:induction false} LeqTransitive(a: string, b: string, c: string)
    requires Leq(a, b) && Leq(b, c)
    ensures Leq(a, c)
  {
    if a != "" && a[0] == b[0] && b[0] == c[0] {
      LeqTransitive(a[1..], b[1..], c[1..]);
    }
  }

  ghost predicate Ascending(s: seq<string>) {
    forall i, j :: 0 <= i < j < |s| ==> Leq(s[i], s[j])
  }

  function Insert(x: string, s: seq<string>): (r: seq<string>)
    ensures multiset(r) == multiset(s) + multiset{x}
  {
    if s == [] || Leq(x, s[0]) then [x] + s
    else
      assert s == [s[0]] + s[1..];
      [s[0]] + Insert(x, s[1..])
  }

  function Sorted(s: seq<string>): (r: seq<string>)
    ensures multiset(r) == multiset(s)
  {
    if s == [] then []
    else
      assert s == [s[0]] + s[1..];
      Insert(s[0], Sorted(s[1..]))
  }

  lemma SameMembers<T>(a: seq<T>, b: seq<T>)
    requires multiset(a) == multiset(b)
    ensures forall x :: x in a <==> x in b
    ensures |a| == |b|
  {
    forall x
      ensures x in a <==> x in b
    {
      assert x in multiset(a) <==> x in a;
      assert x in multiset(b) <==> x in b;
    }
    assert |multiset(a)| == |a| && |multiset(b)| == |b|;
  }

  ghost predicate Distinct<T>(s: seq<T>) {
    forall i, j :: 0 <= i < j < |s| ==> s[i] != s[j]
  }

  /** Reordering keeps elements distinct. */
  lemma DistinctReordered<T>(a: seq<T>, b: seq<T>)
    requires Distinct(a) && multiset(a) == multiset(b)
    ensures Distinct(b)
  {
    DistinctMultiset(a);
    MultisetDistinct(b);
  }

  lemma {:induction false} DistinctMultiset<T>(s: seq<T>)
    requires Distinct(s)
    ensures forall x :: multiset(s)[x] <= 1
  {
    if s != [] {
      DistinctMultiset(s[1..]);
      assert s == [s[0]] + s[1..];
      assert s[0] !in s[1..];
      assert s[0] !in multiset(s[1..]);
    }
  }

  lemma MultisetDistinct<T>(s: seq<T>)
    requires forall x :: multiset(s)[x] <= 1
    ensures Distinct(s)
  {
    forall i, j | 0 <= i < j < |s|
      ensures s[i] != s[j]
    {
      var a, c := s[..j], s[j + 1..];
      assert s == a + [s[j]] + c;
      assert a[i] == s[i] && a[i] in multiset(a);
      assert multiset(s) == multiset(a) + multiset([s[j]]) + multiset(c);
      assert s[j] in [s[j]];
      assert s[i] == s[j] ==> multiset(s)[s[j]] >= 2;
    }
  }

  lemma {:induction false} InsertAscending(x: string, s: seq<string>)
    requires Ascending(s)
    ensures Ascending(Insert(x, s))
  {
    if s == [] {
    } else if Leq(x, s[0]) {
      forall j | 0 <= j < |s|
        ensures Leq(x, s[j])
      {
        if j > 0 {
          LeqTransitive(x, s[0], s[j]);
        }
      }
    } else {
      LeqTotal(x, s[0]);
      InsertAscending(x, s[1..]);
      var rest := Insert(x, s[1..]);
      forall j | 0 <= j < |rest|
        ensures Leq(s[0], rest[j])
      {
        assert rest[j] in multiset(rest);
        assert rest[j] == x || rest[j] in s[1..];
      }
    }
  }

  lemma {:induction false} SortedAscending(s: seq<string>)
    ensures Ascending(Sorted(s))
  {
    if s != [] {
      SortedAscending(s[1..]);
      InsertAscending(s[0], Sorted(s[1..]));
    }
  }
}
