/** Record normalization (lib/csa/record_normalizer.rb): a Hash record or an
    object record becomes a string-keyed row without its binary payloads. */
module RecordNormalizer {
  import opened Wrappers
  import opened Values

  const RedactedFields: set<string> := {"certificate_content", "profile_content"}

  /** What the API client returns: a Hash, or an object known through its
      instance variables (names such as "@name") in definition order. */
  datatype Record = HashRecord(entries: Row) | ObjectRecord(ivars: seq<(string, Value)>)

  /** String#delete_prefix('@'). */
  function DeleteAt(name: string): (key: string)
    ensures |name| > 0 && name[0] == '@' ==> "@" + key == name
    ensures !(|name| > 0 && name[0] == '@') ==> key == name
  {
    if |name| > 0 && name[0] == '@' then name[1..] else name
  }

  /** The hash each_with_object builds from the instance variables: later
      variables overwrite earlier ones with the same key. */
  function IvarHash(ivars: seq<(string, Value)>): (h: Row)
    ensures h.Keys == set i | 0 <= i < |ivars| :: DeleteAt(ivars[i].0)
  {
    if ivars == [] then map[]
    else
      var last := ivars[|ivars| - 1];
      var h := IvarHash(ivars[..|ivars| - 1])[DeleteAt(last.0) := last.1];
      assert forall i :: 0 <= i < |ivars| - 1 ==> ivars[..|ivars| - 1][i] == ivars[i];
      h
  }

  /** Ruby guarantees instance variable names are distinct and start with '@'. */
  predicate WellFormedIvars(ivars: seq<(string, Value)>) {
    && (forall i :: 0 <= i < |ivars| ==> |ivars[i].0| > 0 && ivars[i].0[0] == '@')
    && (forall i, j :: 0 <= i < j < |ivars| ==> ivars[i].0 != ivars[j].0)
  }

  /** With well-formed names, each variable shows up under its name without '@'. */
  lemma {:induction false} IvarHashValues(ivars: seq<(string, Value)>, k: int)
    requires WellFormedIvars(ivars) && 0 <= k < |ivars|
    ensures DeleteAt(ivars[k].0) in IvarHash(ivars)
    ensures IvarHash(ivars)[DeleteAt(ivars[k].0)] == ivars[k].1
  {
    var n := |ivars| - 1;
    var prefix := ivars[..n];
    assert IvarHash(ivars) == IvarHash(prefix)[DeleteAt(ivars[n].0) := ivars[n].1];
    if k < n {
      assert WellFormedIvars(prefix) by {
        assert forall i :: 0 <= i < n ==> prefix[i] == ivars[i];
      }
      IvarHashValues(prefix, k);
      assert prefix[k] == ivars[k];
      DeleteAtInjective(ivars[k].0, ivars[n].0);
    }
  }

  /** Distinct instance variable names stay distinct without their '@'. */
  lemma DeleteAtInjective(a: string, b: string)
    requires |a| > 0 && a[0] == '@' && |b| > 0 && b[0] == '@' && a != b
    ensures DeleteAt(a) != DeleteAt(b)
  {
    assert "@" + DeleteAt(a) == a && "@" + DeleteAt(b) == b;
  }

  /** What normalize returns: nil for a nil record, else the record's hash
      without the redacted fields. */
  function Normalized(record: Option<Record>): (r: Option<Row>)
    ensures r.None? <==> record.None?
    ensures r.Some? ==> r.value.Keys !! RedactedFields
    ensures record.Some? && record.value.HashRecord? ==>
      r.value == map k | k in record.value.entries && k !in RedactedFields :: record.value.entries[k]
    ensures record.Some? && record.value.ObjectRecord? ==>
      r.value.Keys == IvarHash(record.value.ivars).Keys - RedactedFields
  {
    match record
    case None => None
    case Some(HashRecord(entries)) => Some(entries - RedactedFields)
    case Some(ObjectRecord(ivars)) => Some(IvarHash(ivars) - RedactedFields)
  }

  /** A Hash record and an object record with the same attributes normalize
      to the same row. */
  lemma HashAndObjectAgree(ivars: seq<(string, Value)>, entries: Row)
    requires WellFormedIvars(ivars)
    requires entries.Keys == set i | 0 <= i < |ivars| :: DeleteAt(ivars[i].0)
    requires forall i :: 0 <= i < |ivars| ==> entries[DeleteAt(ivars[i].0)] == ivars[i].1
    ensures Normalized(Some(HashRecord(entries))) == Normalized(Some(ObjectRecord(ivars)))
  {
    var h := IvarHash(ivars);
    forall k | k in entries
      ensures k in h && h[k] == entries[k]
    {
      var i :| 0 <= i < |ivars| && DeleteAt(ivars[i].0) == k;
      IvarHashValues(ivars, i);
    }
    assert h == entries;
  }

  /** normalize: copies the record into a fresh hash and deletes the redacted
      fields from that copy; the caller's record is not touched. */
  method Normalize(record: Option<Record>) returns (data: Option<Row>)
    ensures data == Normalized(record)
  {
    if record.None? {
      return None;
    }
    var copy: Row;
    match record.value {
      case HashRecord(entries) =>
        copy := entries;
      case ObjectRecord(ivars) =>
        copy := map[];
        for i := 0 to |ivars|
          invariant copy == IvarHash(ivars[..i])
        {
          assert ivars[..i + 1][..i] == ivars[..i];
          copy := copy[DeleteAt(ivars[i].0) := ivars[i].1];
        }
        assert ivars[..|ivars|] == ivars;
        assert copy == IvarHash(ivars);
    }
    assert Normalized(record) == Some(copy - RedactedFields);
    ghost var before := copy;
    copy := copy - {"certificate_content"};
    copy := copy - {"profile_content"};
    assert copy == before - RedactedFields;
    data := Some(copy);
  }

  /** normalize_all: one entry per record, in order; nil records give nil
      entries and are not dropped. */
  method NormalizeAll(records: seq<Option<Record>>) returns (rows: seq<Option<Row>>)
    ensures |rows| == |records|
    ensures forall i :: 0 <= i < |records| ==> rows[i] == Normalized(records[i])
    ensures forall i :: 0 <= i < |records| ==> (rows[i].None? <==> records[i].None?)
  {
    rows := [];
    for i := 0 to |records|
      invariant |rows| == i
      invariant forall j :: 0 <= j < i ==> rows[j] == Normalized(records[j])
    {
      var row := Normalize(records[i]);
      rows := rows + [row];
    }
  }
}
