/** The filter and sort stage (lib/csa/filtering.rb). The caller's row arrays
    are objects that the stage empties, filters and sorts in place. */
module Filtering {
  import opened Wrappers
  import opened Values
  import opened TimeUtils
  import Strings
  import Sequences

  const StatusVocabulary: seq<string> := ["expired", "expiring_soon", "invalid", "ok"]
  const ExpiringSoonWindowDays: int := 30

  /** A Ruby Array of rows, changed in place by `clear`, `select!` and `sort_by!`. */
  class RowArray {
    var rows: seq<Row>

    constructor (rows: seq<Row>)
      ensures this.rows == rows
    {
      this.rows := rows;
    }

    /** Array#clear. */
    method Clear()
      modifies this
      ensures rows == []
    {
      rows := [];
    }

    /** Array#select!: keeps, in order, exactly the rows `keep` accepts. */
    method Select(keep: Row -> bool)
      modifies this
      ensures rows == Filter(old(rows), keep)
    {
      var kept: seq<Row> := [];
      var i := 0;
      while i < |rows|
        invariant rows == old(rows)
        invariant 0 <= i <= |rows|
        invariant kept == Filter(rows[..i], keep)
      {
        FilterAppend(rows[..i], rows[i], keep);
        assert rows[..i + 1] == rows[..i] + [rows[i]];
        if keep(rows[i]) {
          kept := kept + [rows[i]];
        }
        i := i + 1;
      }
      assert rows[..i] == rows;
      rows := kept;
    }

    /** Array#sort_by! with the expiration sort key. Ruby's sort is not
        stable, so only the order of the keys is promised. */
    method SortByExpiration(cal: Calendar)
      modifies this
      ensures SortedByExpiration(cal, rows)
      ensures multiset(rows) == multiset(old(rows))
    {
      var sorted: seq<Row> := [];
      var i := 0;
      while i < |rows|
        invariant rows == old(rows)
        invariant 0 <= i <= |rows|
        invariant SortedByExpiration(cal, sorted)
        invariant multiset(sorted) == multiset(rows[..i])
      {
        assert rows[..i + 1] == rows[..i] + [rows[i]];
        InsertKeepsSorted(cal, rows[i], sorted);
        sorted := InsertByExpiration(cal, rows[i], sorted);
        i := i + 1;
      }
      assert rows[..i] == rows;
      rows := sorted;
    }
  }

  /** The rows `keep` accepts, in their original order. */
  function Filter(rows: seq<Row>, keep: Row -> bool): (r: seq<Row>)
    ensures |r| <= |rows|
    ensures forall x :: x in r <==> x in rows && keep(x)
  {
    if rows == [] then []
    else if keep(rows[0]) then [rows[0]] + Filter(rows[1..], keep)
    else Filter(rows[1..], keep)
  }

  lemma {:induction false} FilterAppend(rows: seq<Row>, x: Row, keep: Row -> bool)
    ensures Filter(rows + [x], keep) == Filter(rows, keep) + (if keep(x) then [x] else [])
  {
    if rows != [] {
      assert (rows + [x])[1..] == rows[1..] + [x];
      FilterAppend(rows[1..], x, keep);
    }
  }

  /** Filtering never reorders: the kept rows keep their relative order. */
  lemma {:induction false} FilterKeepsOrder(rows: seq<Row>, keep: Row -> bool)
    ensures Sequences.IsSubsequence(Filter(rows, keep), rows)
  {
    if rows != [] {
      FilterKeepsOrder(rows[1..], keep);
    }
  }

  /** Filtering twice with the same test is filtering once. */
  lemma {:induction false} FilterIdempotent(rows: seq<Row>, keep: Row -> bool)
    ensures Filter(Filter(rows, keep), keep) == Filter(rows, keep)
  {
    if rows != [] {
      FilterIdempotent(rows[1..], keep);
    }
  }

  /** statuses_for: the status list of one row. */
  function StatusesFor(cal: Calendar, now: int, row: Row): (r: seq<string>)
    ensures |r| > 0
    ensures forall s :: s in r ==> s in StatusVocabulary
    ensures ("expired" in r) <==> Expired(cal, now, row)
    ensures ("expiring_soon" in r) <==> !Expired(cal, now, row) && ExpiringSoon(cal, now, row, ExpiringSoonWindowDays)
    ensures ("invalid" in r) <==> IsInvalidState(row)
    ensures !("expired" in r && "expiring_soon" in r)
    ensures ("ok" in r) <==> r == ["ok"]
  {
    var invalidState := IsInvalidState(row);
    var expired := Expired(cal, now, row);
    var expiringSoon := !expired && ExpiringSoon(cal, now, row, ExpiringSoonWindowDays);
    var statuses := (if expired then ["expired"] else [])
      + (if expiringSoon then ["expiring_soon"] else [])
      + (if invalidState then ["invalid"] else []);
    if statuses == [] then ["ok"] else statuses
  }

  /** `row['profile_state'].to_s == 'INVALID'`, whatever the dates say. */
  predicate IsInvalidState(row: Row) {
    ToS(Get(row, "profile_state")) == "INVALID"
  }

  /** Array#intersect?. */
  predicate Intersects(a: seq<string>, b: seq<string>) {
    exists s :: s in a && s in b
  }

  /** The value type_for looks at: `certificate_type || profile_type`. */
  function TypeValue(row: Row): Value {
    Or(Get(row, "certificate_type"), Get(row, "profile_type"))
  }

  /** type_for: development when the type text matches /development/i,
      distribution otherwise, also when no type is present. */
  function TypeFor(row: Row): (r: string)
    ensures r == "development" || r == "distribution"
    ensures r == "development" <==> Strings.ContainsIgnoringCase(ToS(TypeValue(row)), "development")
    ensures Truthy(Get(row, "certificate_type")) ==> TypeValue(row) == Get(row, "certificate_type")
    ensures TypeValue(row) == Nil ==> r == "distribution"
  {
    if Strings.ContainsIgnoringCase(ToS(TypeValue(row)), "development") then "development" else "distribution"
  }

  /** The Ruby regular expression cannot match the empty text. */
  lemma NoDevelopmentInEmptyText()
    ensures !Strings.ContainsIgnoringCase("", "development")
  {
    assert Strings.Lower("") == "";
  }

  /** filter_by_status! and filter_by_type! as values: nil criteria keep all. */
  function StatusSelected(cal: Calendar, now: int, rows: seq<Row>, includedStatuses: Option<seq<string>>): seq<Row> {
    match includedStatuses
    case None => rows
    case Some(included) => Filter(rows, row => Intersects(StatusesFor(cal, now, row), included))
  }

  function TypeSelected(rows: seq<Row>, includedTypes: Option<seq<string>>): seq<Row> {
    match includedTypes
    case None => rows
    case Some(included) => Filter(rows, row => TypeFor(row) in included)
  }

  /** Whether filter_by_asset! clears the list of this kind. */
  predicate Excluded(includedAssets: Option<seq<string>>, kind: string) {
    includedAssets.Some? && kind !in includedAssets.value
  }

  /** The rows of one kind after the three filters of apply. */
  function Filtered(cal: Calendar, now: int, rows: seq<Row>, kind: string,
                    includedStatuses: Option<seq<string>>, includedTypes: Option<seq<string>>,
                    includedAssets: Option<seq<string>>): seq<Row>
  {
    var afterAsset := if Excluded(includedAssets, kind) then [] else rows;
    TypeSelected(StatusSelected(cal, now, afterAsset, includedStatuses), includedTypes)
  }

  /** Asset exclusion runs first and is absolute. */
  lemma ExclusionIsAbsolute(cal: Calendar, now: int, rows: seq<Row>, kind: string,
                            includedStatuses: Option<seq<string>>, includedTypes: Option<seq<string>>,
                            includedAssets: Option<seq<string>>)
    requires Excluded(includedAssets, kind)
    ensures Filtered(cal, now, rows, kind, includedStatuses, includedTypes, includedAssets) == []
  {
  }

  /** Every row that survives apply's filters meets each restricted criterion,
      and every row of an included kind that meets them all survives. */
  lemma FilteredMeetsCriteria(cal: Calendar, now: int, rows: seq<Row>, kind: string,
                              includedStatuses: Option<seq<string>>, includedTypes: Option<seq<string>>,
                              includedAssets: Option<seq<string>>, row: Row)
    ensures row in Filtered(cal, now, rows, kind, includedStatuses, includedTypes, includedAssets) <==>
      && row in rows
      && !Excluded(includedAssets, kind)
      && (includedStatuses.Some? ==> Intersects(StatusesFor(cal, now, row), includedStatuses.value))
      && (includedTypes.Some? ==> TypeFor(row) in includedTypes.value)
  {
  }

  /** filter_by_asset!: nil leaves both lists alone; otherwise exactly the
      lists whose kind is not included are emptied. */
  method FilterByAsset(certificateRows: RowArray, profileRows: RowArray, includedAssets: Option<seq<string>>)
    requires certificateRows != profileRows
    modifies certificateRows, profileRows
    ensures certificateRows.rows == if Excluded(includedAssets, "certificates") then [] else old(certificateRows.rows)
    ensures profileRows.rows == if Excluded(includedAssets, "profiles") then [] else old(profileRows.rows)
  {
    if includedAssets.None? {
      return;
    }
    if "certificates" !in includedAssets.value {
      certificateRows.Clear();
    }
    if "profiles" !in includedAssets.value {
      profileRows.Clear();
    }
  }

  /** filter_by_status!: nil criteria change nothing; otherwise the rows whose
      status list meets the criteria are kept, in order. */
  method FilterByStatus(cal: Calendar, now: int, rows: RowArray, includedStatuses: Option<seq<string>>)
    modifies rows
    ensures rows.rows == StatusSelected(cal, now, old(rows.rows), includedStatuses)
  {
    if includedStatuses.None? {
      return;
    }
    var included := includedStatuses.value;
    rows.Select(row => Intersects(StatusesFor(cal, now, row), included));
  }

  /** filter_by_type!: nil criteria change nothing; otherwise the rows whose
      type is included are kept, in order. */
  method FilterByType(rows: RowArray, includedTypes: Option<seq<string>>)
    modifies rows
    ensures rows.rows == TypeSelected(old(rows.rows), includedTypes)
  {
    if includedTypes.None? {
      return;
    }
    var included := includedTypes.value;
    rows.Select(row => TypeFor(row) in included);
  }

  /** apply: asset, status and type filters on both lists, then the profile
      list alone is sorted by expiration. The caller's arrays are returned. */
  method Apply(cal: Calendar, now: int, certificateRows: RowArray, profileRows: RowArray,
               includedStatuses: Option<seq<string>>, includedTypes: Option<seq<string>>,
               includedAssets: Option<seq<string>>)
    returns (certificates: RowArray, profiles: RowArray)
    requires certificateRows != profileRows
    modifies certificateRows, profileRows
    ensures certificates == certificateRows && profiles == profileRows
    ensures certificateRows.rows ==
      Filtered(cal, now, old(certificateRows.rows), "certificates", includedStatuses, includedTypes, includedAssets)
    ensures multiset(profileRows.rows) ==
      multiset(Filtered(cal, now, old(profileRows.rows), "profiles", includedStatuses, includedTypes, includedAssets))
    ensures SortedByExpiration(cal, profileRows.rows)
  {
    FilterByAsset(certificateRows, profileRows, includedAssets);
    FilterByStatus(cal, now, certificateRows, includedStatuses);
    FilterByStatus(cal, now, profileRows, includedStatuses);
    FilterByType(certificateRows, includedTypes);
    FilterByType(profileRows, includedTypes);
    profileRows.SortByExpiration(cal);
    return certificateRows, profileRows;
  }

  /** Nondecreasing expiration sort keys. */
  predicate SortedByExpiration(cal: Calendar, rows: seq<Row>) {
    forall i, j :: 0 <= i < j < |rows| ==>
      KeyLe(SortKeyByExpiration(cal, rows[i]), SortKeyByExpiration(cal, rows[j]))
  }

  /** Places one row before the first row whose key is not smaller. */
  function InsertByExpiration(cal: Calendar, x: Row, sorted: seq<Row>): (r: seq<Row>)
    ensures multiset(r) == multiset(sorted) + multiset{x}
    ensures forall y :: y in r ==> y == x || y in sorted
  {
    if sorted == [] then [x]
    else if KeyLe(SortKeyByExpiration(cal, x), SortKeyByExpiration(cal, sorted[0])) then [x] + sorted
    else
      assert sorted == [sorted[0]] + sorted[1..];
      [sorted[0]] + InsertByExpiration(cal, x, sorted[1..])
  }

  /** A row whose key is at most every key of a sorted list may lead it. */
  lemma SortedCons(cal: Calendar, a: Row, rest: seq<Row>)
    requires SortedByExpiration(cal, rest)
    requires forall j :: 0 <= j < |rest| ==>
      KeyLe(SortKeyByExpiration(cal, a), SortKeyByExpiration(cal, rest[j]))
    ensures SortedByExpiration(cal, [a] + rest)
  {
    var r := [a] + rest;
    forall i, j | 0 <= i < j < |r|
      ensures KeyLe(SortKeyByExpiration(cal, r[i]), SortKeyByExpiration(cal, r[j]))
    {
      assert r[j] == rest[j - 1];
      if i > 0 {
        assert r[i] == rest[i - 1];
      }
    }
  }

  /** Inserting into a sorted list keeps it sorted. */
  lemma {:induction false} InsertKeepsSorted(cal: Calendar, x: Row, sorted: seq<Row>)
    requires SortedByExpiration(cal, sorted)
    ensures SortedByExpiration(cal, InsertByExpiration(cal, x, sorted))
  {
    if sorted != [] {
      var kx := SortKeyByExpiration(cal, x);
      var k0 := SortKeyByExpiration(cal, sorted[0]);
      if KeyLe(kx, k0) {
        forall j | 0 <= j < |sorted|
          ensures KeyLe(kx, SortKeyByExpiration(cal, sorted[j]))
        {
          if j > 0 {
            KeyLeTransitive(kx, k0, SortKeyByExpiration(cal, sorted[j]));
          }
        }
        SortedCons(cal, x, sorted);
      } else {
        var tail := sorted[1..];
        assert SortedByExpiration(cal, tail) by {
          assert forall i :: 0 <= i < |tail| ==> tail[i] == sorted[i + 1];
        }
        var rest := InsertByExpiration(cal, x, tail);
        InsertKeepsSorted(cal, x, tail);
        KeyLeTotal(kx, k0);
        forall j | 0 <= j < |rest|
          ensures KeyLe(k0, SortKeyByExpiration(cal, rest[j]))
        {
          assert rest[j] in rest;
          if rest[j] != x {
            var m :| 0 <= m < |tail| && tail[m] == rest[j];
            assert sorted[m + 1] == rest[j];
          }
        }
        SortedCons(cal, sorted[0], rest);
      }
    }
  }

  /** Undated profiles end up after every dated one. */
  lemma {:induction false} UndatedSortLast(cal: Calendar, rows: seq<Row>, i: int, j: int)
    requires SortedByExpiration(cal, rows)
    requires 0 <= i < |rows| && 0 <= j < |rows|
    requires Expiration(cal, rows[i]).None? && Expiration(cal, rows[j]).Some?
    ensures j < i
  {
    if i < j {
      assert false;
    }
  }
}
