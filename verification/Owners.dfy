/**
 Who owns an instance (incuscloud/server/src/acl/owners.ts): a row per
 cluster, project and name, and how claims from different sources combine.
 */
module Owners {
  import opened Text

  datatype InstanceKey = InstanceKey(clusterId: string, project: string, name: string)

  /** Where a claim comes from, in rising order of trust; a backfill never replaces a row. */
  datatype OwnerSource = FromBackfill | FromEvent | FromIncusCloud

  function Rank(s: OwnerSource): nat {
    match s
    case FromBackfill => 0
    case FromEvent => 1
    case FromIncusCloud => 2
  }

  datatype OwnerRow = OwnerRow(userId: Option<string>, serviceAccountId: Option<string>, source: OwnerSource)

  type OwnerTable = map<InstanceKey, OwnerRow>

  /** The columns a subject goes into: what follows the first colon, up to the next. */
  function Columns(subject: string, source: OwnerSource): OwnerRow {
    var parts := Split(subject, ':');
    var id := if |parts| > 1 then Some(parts[1]) else None;
    if parts[0] == "service" then OwnerRow(None, id, source) else OwnerRow(id, None, source)
  }

  /** The owner as a subject; none when unowned. */
  function OwnerOf(r: OwnerRow): Option<string> {
    if r.userId.Some? && r.userId.value != "" then Some("user:" + r.userId.value)
    else if r.serviceAccountId.Some? && r.serviceAccountId.value != "" then Some("service:" + r.serviceAccountId.value)
    else None
  }

  /**
   Writing a subject and reading it back gives the subject exactly when it is `user:<id>` or
   `service:<id>` with a plain id.
   */
  lemma SubjectRoundTrip(subject: string, source: OwnerSource)
    ensures OwnerOf(Columns(subject, source)) == Some(subject)
      <==> var parts := Split(subject, ':'); |parts| == 2 && parts[0] in {"user", "service"} && parts[1] != ""
  {
    ReadBack(subject, source);
    PartsDetermine(subject, KindOf(subject));
  }

  function KindOf(subject: string): string {
    if Split(subject, ':')[0] == "service" then "service" else "user"
  }

  lemma ReadBack(subject: string, source: OwnerSource)
    ensures var parts := Split(subject, ':');
      OwnerOf(Columns(subject, source))
      == if |parts| > 1 && parts[1] != "" then Some(KindOf(subject) + ":" + parts[1]) else None
  {
    assert "service:" == "service" + ":" && "user:" == "user" + ":";
  }

  lemma PartsDetermine(subject: string, kind: string)
    requires ':' !in kind
    ensures var parts := Split(subject, ':');
      |parts| > 1 && kind + ":" + parts[1] == subject <==> |parts| == 2 && parts[0] == kind
  {
    var parts := Split(subject, ':');
    JoinOfSplit(subject, ':');
    if |parts| == 2 && parts[0] == kind {
      assert parts == [kind, parts[1]];
      JoinPair(kind, parts[1]);
    }
    if |parts| > 1 && kind + ":" + parts[1] == subject {
      SplitPair(kind, parts[1]);
    }
  }

  lemma SplitPair(a: string, b: string)
    requires ':' !in a && ':' !in b
    ensures Split(a + ":" + b, ':') == [a, b]
  {
    SplitConcat(a, b, ':');
  }

  lemma JoinPair(a: string, b: string)
    ensures Join([a, b], ':') == a + ":" + b
  {
    assert [a, b][1..] == [b];
  }

  /** One claim against the row there is, if any: an insert, or on conflict an update where the source wins. */
  function Claimed(row: Option<OwnerRow>, subject: string, source: OwnerSource): OwnerRow {
    if row.None? then Columns(subject, source)
    else if source != FromBackfill && Rank(row.value.source) <= Rank(source) then Columns(subject, source)
    else row.value
  }

  function RowAt(t: OwnerTable, k: InstanceKey): Option<OwnerRow> {
    if k in t then Some(t[k]) else None
  }

  function Recorded(t: OwnerTable, k: InstanceKey, subject: string, source: OwnerSource): OwnerTable {
    t[k := Claimed(RowAt(t, k), subject, source)]
  }

  /** Re-keying a row; the primary key refuses a name that is taken. */
  function Renamed(t: OwnerTable, from: InstanceKey, to: InstanceKey): Option<OwnerTable> {
    if from !in t || from == to then Some(t)
    else if to in t then None
    else Some((t - {from})[to := t[from]])
  }

  function Forgotten(t: OwnerTable, k: InstanceKey): OwnerTable {
    t - {k}
  }

  /** Giving `to` the owner `from` has; with `move`, `from` is forgotten. */
  function Carried(t: OwnerTable, from: InstanceKey, to: InstanceKey, move: bool): OwnerTable {
    if from !in t then t
    else
      var given := (t - {to})[to := t[from].(source := FromIncusCloud)];
      if move then given - {from} else given
  }

  /**
   Carrying leaves exactly one owner where it should: the target has the source's owner at the best
   rank, nothing else changes.
   */
  lemma CarryMovesOwner(t: OwnerTable, from: InstanceKey, to: InstanceKey, move: bool)
    requires from in t
    ensures var after := Carried(t, from, to, move);
      && (to in after <==> !(move && from == to))
      && (to in after ==> OwnerOf(after[to]) == OwnerOf(t[from]) && after[to].source == FromIncusCloud)
      && (from != to ==> (from in after <==> !move))
      && (forall k :: k != from && k != to ==> RowAt(after, k) == RowAt(t, k))
  {
  }

  datatype Claim = Claim(subject: string, source: OwnerSource)

  /** The row after these claims, starting from none. */
  function RowAfter(claims: seq<Claim>): Option<OwnerRow> {
    if claims == [] then None
    else
      var last := claims[|claims| - 1];
      Some(Claimed(RowAfter(claims[..|claims| - 1]), last.subject, last.source))
  }

  /** The claim that wins: the first when all are backfill, otherwise the last of the highest rank. */
  ghost predicate Wins(claims: seq<Claim>, i: nat) {
    && i < |claims|
    && (forall j :: 0 <= j < |claims| ==> Rank(claims[j].source) <= Rank(claims[i].source))
    && if claims[i].source == FromBackfill then i == 0
       else forall j :: i < j < |claims| ==> Rank(claims[j].source) < Rank(claims[i].source)
  }

  /** Exactly one claim wins, and the row is its. */
  lemma {:induction false} RowIsTheWinners(claims: seq<Claim>) returns (i: nat)
    requires claims != []
    ensures Wins(claims, i) && RowAfter(claims) == Some(Columns(claims[i].subject, claims[i].source))
    ensures forall j :: Wins(claims, j) ==> j == i
  {
    var n := |claims| - 1;
    var init := claims[..n];
    if init == [] {
      i := 0;
    } else {
      var k := RowIsTheWinners(init);
      assert forall j :: 0 <= j < n ==> init[j] == claims[j];
      if claims[n].source != FromBackfill && Rank(claims[k].source) <= Rank(claims[n].source) {
        i := n;
      } else {
        i := k;
      }
    }
  }

  lemma {:induction false} SourceStored(claims: seq<Claim>)
    requires claims != []
    ensures RowAfter(claims).Some?
    ensures RowAfter(claims).value.source == FromIncusCloud <==> exists c :: c in claims && c.source == FromIncusCloud
    ensures RowAfter(claims).value.source == FromBackfill <==> forall c :: c in claims ==> c.source == FromBackfill
  {
    var n := |claims| - 1;
    assert claims == claims[..n] + [claims[n]];
    if n > 0 {
      SourceStored(claims[..n]);
    }
  }

  /**
   By name: a claim of IncusCloud always takes the row; a cluster's event takes it from a backfill or
   another event, and never from IncusCloud; a backfill takes it from nobody.
   */
  lemma LastClaim(claims: seq<Claim>, more: Claim)
    requires claims != []
    ensures RowAfter(claims + [more])
      == match more.source
         case FromIncusCloud => Some(Columns(more.subject, FromIncusCloud))
         case FromEvent =>
           if exists c :: c in claims && c.source == FromIncusCloud then RowAfter(claims)
           else Some(Columns(more.subject, FromEvent))
         case FromBackfill => RowAfter(claims)
  {
    assert (claims + [more])[..|claims|] == claims;
    SourceStored(claims);
  }

  /** A later claim never lowers the stored rank. */
  lemma RankNeverFalls(claims: seq<Claim>, more: Claim)
    requires claims != []
    ensures RowAfter(claims).Some? && RowAfter(claims + [more]).Some?
    ensures Rank(RowAfter(claims).value.source) <= Rank(RowAfter(claims + [more]).value.source)
  {
    assert (claims + [more])[..|claims|] == claims;
  }
}
