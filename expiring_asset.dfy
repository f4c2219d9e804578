/** The Swift rewrite's asset record, the total order it lists assets in, and
    the text printed for a missing expiration date. Dates are whole seconds;
    strings compare character by character. */
module ExpiringAsset {
  import opened Wrappers

  datatype Kind = Certificate | Profile

  datatype Asset = Asset(id: string, kind: Kind, name: string, expirationDate: Option<int>, details: string)

  /** The enum's raw values. */
  function RawValue(k: Kind): (r: string)
    ensures r == "CERTIFICATE" <==> k == Certificate
    ensures r == "PROFILE" <==> k == Profile
  {
    match k
    case Certificate => "CERTIFICATE"
    case Profile => "PROFILE"
  }

  /** Lexicographic order on strings, a proper prefix first. */
  predicate StrLess(a: string, b: string)
    decreases |a|
  {
    if a == [] then b != []
    else if b == [] then false
    else if a[0] != b[0] then a[0] < b[0]
    else StrLess(a[1..], b[1..])
  }

  lemma {:induction false} StrLessIrreflexive(a: string)
    ensures !StrLess(a, a)
    decreases |a|
  {
    if a != [] {
      StrLessIrreflexive(a[1..]);
    }
  }

  lemma {:induction false} StrLessTransitive(a: string, b: string, c: string)
    requires StrLess(a, b) && StrLess(b, c)
    ensures StrLess(a, c)
    decreases |a|
  {
    if a != [] && a[0] == b[0] && b[0] == c[0] {
      StrLessTransitive(a[1..], b[1..], c[1..]);
    }
  }

  lemma {:induction false} StrLessTotal(a: string, b: string)
    requires a != b
    ensures StrLess(a, b) || StrLess(b, a)
    decreases |a|
  {
    if a != [] && b != [] && a[0] == b[0] {
      assert a == [a[0]] + a[1..] && b == [b[0]] + b[1..];
      StrLessTotal(a[1..], b[1..]);
    }
  }

  lemma StrLessAsymmetric(a: string, b: string)
    requires StrLess(a, b)
    ensures !StrLess(b, a)
  {
    if StrLess(b, a) {
      StrLessTransitive(a, b, a);
      StrLessIrreflexive(a);
    }
  }

  /** The tie-break after the dates: kind raw value, then name, then id. */
  predicate TieBreakLess(lhs: Asset, rhs: Asset) {
    if lhs.kind != rhs.kind then StrLess(RawValue(lhs.kind), RawValue(rhs.kind))
    else if lhs.name != rhs.name then StrLess(lhs.name, rhs.name)
    else StrLess(lhs.id, rhs.id)
  }

  /** sortByExpirationAscending: dated before undated, earlier dates first,
      and the tie-break for equal or missing dates. */
  predicate SortByExpirationAscending(lhs: Asset, rhs: Asset) {
    match (lhs.expirationDate, rhs.expirationDate)
    case (Some(left), Some(right)) => if left != right then left < right else TieBreakLess(lhs, rhs)
    case (Some(_), None) => true
    case (None, Some(_)) => false
    case (None, None) => TieBreakLess(lhs, rhs)
  }

  /** Every dated asset comes before every undated one. */
  lemma DatedBeforeUndated(dated: Asset, undated: Asset)
    requires dated.expirationDate.Some? && undated.expirationDate.None?
    ensures SortByExpirationAscending(dated, undated)
    ensures !SortByExpirationAscending(undated, dated)
  {
  }

  /** Between distinct dates, the earlier comes first whatever the rest says. */
  lemma EarlierDateFirst(lhs: Asset, rhs: Asset)
    requires lhs.expirationDate.Some? && rhs.expirationDate.Some?
    requires lhs.expirationDate.value != rhs.expirationDate.value
    ensures SortByExpirationAscending(lhs, rhs) <==> lhs.expirationDate.value < rhs.expirationDate.value
  {
  }

  /** Everything the comparator looks at. */
  predicate SameSortFields(a: Asset, b: Asset) {
    a.expirationDate == b.expirationDate && a.kind == b.kind && a.name == b.name && a.id == b.id
  }

  lemma TieBreakIrreflexive(a: Asset)
    ensures !TieBreakLess(a, a)
  {
    StrLessIrreflexive(a.id);
  }

  lemma Irreflexive(a: Asset)
    ensures !SortByExpirationAscending(a, a)
  {
    TieBreakIrreflexive(a);
  }

  lemma TieBreakTransitive(a: Asset, b: Asset, c: Asset)
    requires TieBreakLess(a, b) && TieBreakLess(b, c)
    ensures TieBreakLess(a, c)
  {
    if a.kind != b.kind {
      if b.kind != c.kind {
        StrLessTransitive(RawValue(a.kind), RawValue(b.kind), RawValue(c.kind));
        if a.kind == c.kind {
          StrLessIrreflexive(RawValue(a.kind));
        }
      }
    } else if b.kind != c.kind {
    } else if a.name != b.name {
      if b.name != c.name {
        StrLessTransitive(a.name, b.name, c.name);
        if a.name == c.name {
          StrLessIrreflexive(a.name);
        }
      }
    } else if b.name != c.name {
    } else {
      StrLessTransitive(a.id, b.id, c.id);
    }
  }

  lemma Transitive(a: Asset, b: Asset, c: Asset)
    requires SortByExpirationAscending(a, b) && SortByExpirationAscending(b, c)
    ensures SortByExpirationAscending(a, c)
  {
    if a.expirationDate.None? || (b.expirationDate.Some? && c.expirationDate.Some?
        && a.expirationDate == b.expirationDate && b.expirationDate == c.expirationDate) {
      TieBreakTransitive(a, b, c);
    }
  }

  lemma Asymmetric(a: Asset, b: Asset)
    requires SortByExpirationAscending(a, b)
    ensures !SortByExpirationAscending(b, a)
  {
    if SortByExpirationAscending(b, a) {
      Transitive(a, b, a);
      Irreflexive(a);
    }
  }

  /** Two assets with different ids are always ordered one way or the other. */
  lemma TotalOnDistinctIds(a: Asset, b: Asset)
    requires a.id != b.id
    ensures SortByExpirationAscending(a, b) || SortByExpirationAscending(b, a)
  {
    if a.kind != b.kind {
      StrLessTotal(RawValue(a.kind), RawValue(b.kind));
    } else if a.name != b.name {
      StrLessTotal(a.name, b.name);
    } else {
      StrLessTotal(a.id, b.id);
    }
  }

  /** Assets that are not ordered either way agree on every sorted field. */
  lemma UnorderedAreTied(a: Asset, b: Asset)
    requires !SortByExpirationAscending(a, b) && !SortByExpirationAscending(b, a)
    ensures SameSortFields(a, b)
  {
    if a.id != b.id {
      TotalOnDistinctIds(a, b);
    } else if a.kind != b.kind {
      StrLessTotal(RawValue(a.kind), RawValue(b.kind));
    } else if a.name != b.name {
      StrLessTotal(a.name, b.name);
    }
  }

  /** The comparator reads only the sorted fields. */
  lemma TiedAreInterchangeable(a: Asset, b: Asset, c: Asset)
    requires SameSortFields(a, b)
    ensures SortByExpirationAscending(a, c) == SortByExpirationAscending(b, c)
    ensures SortByExpirationAscending(c, a) == SortByExpirationAscending(c, b)
  {
  }

  /** "Not before" is transitive, as `sorted(by:)` requires of a strict weak order. */
  lemma NotBeforeTransitive(a: Asset, b: Asset, c: Asset)
    requires !SortByExpirationAscending(b, a) && !SortByExpirationAscending(c, b)
    ensures !SortByExpirationAscending(c, a)
  {
    if SortByExpirationAscending(c, a) {
      if SortByExpirationAscending(a, b) {
        Transitive(c, a, b);
      } else {
        UnorderedAreTied(a, b);
        TiedAreInterchangeable(a, b, c);
      }
    }
  }

  /** No asset is listed after one it sorts before. */
  predicate Sorted(assets: seq<Asset>) {
    forall i, j :: 0 <= i < j < |assets| ==> !SortByExpirationAscending(assets[j], assets[i])
  }

  /** Places an asset in front of the first one it does not sort after. */
  function Insert(x: Asset, sorted: seq<Asset>): (r: seq<Asset>)
    ensures multiset(r) == multiset(sorted) + multiset{x}
    ensures forall y :: y in r ==> y == x || y in sorted
  {
    if sorted == [] then [x]
    else if SortByExpirationAscending(sorted[0], x) then
      assert sorted == [sorted[0]] + sorted[1..];
      [sorted[0]] + Insert(x, sorted[1..])
    else [x] + sorted
  }

  lemma {:induction false} InsertKeepsSorted(x: Asset, sorted: seq<Asset>)
    requires Sorted(sorted)
    ensures Sorted(Insert(x, sorted))
  {
    if sorted != [] {
      var r := Insert(x, sorted);
      if SortByExpirationAscending(sorted[0], x) {
        var rest := Insert(x, sorted[1..]);
        InsertKeepsSorted(x, sorted[1..]);
        assert r == [sorted[0]] + rest;
        forall j | 1 <= j < |r|
          ensures !SortByExpirationAscending(r[j], sorted[0])
        {
          assert r[j] == rest[j - 1] && rest[j - 1] in rest;
          if rest[j - 1] == x {
            Asymmetric(sorted[0], x);
          } else {
            var m :| 0 <= m < |sorted[1..]| && sorted[1..][m] == rest[j - 1];
            assert sorted[m + 1] == rest[j - 1];
          }
        }
      } else {
        forall j | 1 <= j < |r|
          ensures !SortByExpirationAscending(r[j], x)
        {
          assert r[j] == sorted[j - 1];
          if j > 1 {
            NotBeforeTransitive(x, sorted[0], sorted[j - 1]);
          }
        }
      }
    }
  }

  /** `sorted(by: sortByExpirationAscending)`: the same assets, in order. */
  function SortAssets(assets: seq<Asset>): (r: seq<Asset>)
    ensures multiset(r) == multiset(assets)
    ensures Sorted(r)
  {
    if assets == [] then []
    else
      var rest := SortAssets(assets[1..]);
      InsertKeepsSorted(assets[0], rest);
      assert assets == [assets[0]] + assets[1..];
      Insert(assets[0], rest)
  }

  /** AssetOutputFormatter.string(from:): the formatted date, or a fixed
      marker when there is none. */
  function FormatExpiration(format: int -> string, date: Option<int>): (r: string)
    ensures date.None? ==> r == "NO_EXPIRATION"
    ensures date.Some? ==> r == format(date.value)
  {
    if date.None? then "NO_EXPIRATION" else format(date.value)
  }
}
