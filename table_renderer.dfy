/** The terminal table output: which sections are shown, how each cell is
    chosen and coloured, and how the certificate type is cut out of the
    certificate name. Terminal::Table's layout is a function handed in. */
module TableRenderer {
  import opened Wrappers
  import opened Values
  import opened TimeUtils
  import Strings
  import Filtering

  const AnsiRed: string := ['\U{1B}'] + "[31m"
  const AnsiYellow: string := ['\U{1B}'] + "[33m"
  const AnsiReset: string := ['\U{1B}'] + "[0m"
  const DateFields: seq<string> := ["created_date", "expiration_date"]
  const CertificateHeadings: seq<string> := ["display_name", "type", "platform", "expiration_date", "days_until_expiration"]
  const ProfileHeadings: seq<string> := ["name", "profile_type", "platform", "profile_state", "expiration_date", "days_until_expiration"]
  /** `PROFILE_HEADINGS.index('profile_state')`. */
  const ProfileStateIndex: int := 3

  /** A table cell: nil, or the text the value prints as. */
  type Cell = Option<string>

  /** What Terminal::Table.new receives. */
  datatype Table = Table(title: string, headings: seq<string>, rows: seq<seq<Cell>>)

  /** The renderer's state from initialize. */
  datatype Renderer = Renderer(includedAssets: Option<seq<string>>, certificateRows: seq<Row>, profileRows: seq<Row>)

  predicate IncludeCertificates(r: Renderer) {
    r.includedAssets.None? || "certificates" in r.includedAssets.value
  }

  predicate IncludeProfiles(r: Renderer) {
    r.includedAssets.None? || "profiles" in r.includedAssets.value
  }

  /** A section is shown exactly for a kind that the asset filter keeps. */
  lemma SectionsMatchAssetFilter(r: Renderer)
    ensures IncludeCertificates(r) <==> !Filtering.Excluded(r.includedAssets, "certificates")
    ensures IncludeProfiles(r) <==> !Filtering.Excluded(r.includedAssets, "profiles")
  {
  }

  lemma ProfileStateColumn()
    ensures 0 <= ProfileStateIndex < |ProfileHeadings|
    ensures ProfileHeadings[ProfileStateIndex] == "profile_state"
    ensures forall i :: 0 <= i < ProfileStateIndex ==> ProfileHeadings[i] != "profile_state"
  {
  }

  /** row_color: red for an expired row, else yellow within 30 days, else none. */
  function RowColor(cal: Calendar, now: int, row: Row): (c: Option<string>)
    ensures c == Some(AnsiRed) <==> Expired(cal, now, row)
    ensures c == Some(AnsiYellow) <==> !Expired(cal, now, row) && ExpiringSoon(cal, now, row, 30)
    ensures c.None? <==> !ExpiringSoon(cal, now, row, 30)
  {
    assert AnsiRed[3] != AnsiYellow[3];
    if Expired(cal, now, row) then
      Some(AnsiRed)
    else if ExpiringSoon(cal, now, row, 30) then
      Some(AnsiYellow)
    else
      None
  }

  /** The colour of a row agrees with its status list: red exactly for
      `expired`, yellow exactly for `expiring_soon`. */
  lemma RowColorMatchesStatuses(cal: Calendar, now: int, row: Row)
    ensures RowColor(cal, now, row) == Some(AnsiRed) <==> "expired" in Filtering.StatusesFor(cal, now, row)
    ensures RowColor(cal, now, row) == Some(AnsiYellow) <==> "expiring_soon" in Filtering.StatusesFor(cal, now, row)
  {
    if Expired(cal, now, row) {
      ExpiredIsExpiringSoon(cal, now, row, 30);
    }
  }

  /** One value as colorize_row_values leaves it: nil and uncoloured values
      unchanged, anything else wrapped in the colour and a reset. */
  function Painted(cell: Cell, color: Option<string>): Cell {
    if color.None? || cell.None? then cell else Some(color.value + cell.value + AnsiReset)
  }

  /** colorize_row_values: without a colour the values are returned as they
      are; with one, each non-nil value is wrapped in it and a reset. */
  function Colorize(values: seq<Cell>, color: Option<string>): (r: seq<Cell>)
    ensures |r| == |values|
    ensures color.None? ==> r == values
    ensures forall i :: 0 <= i < |values| ==> (r[i].None? <==> values[i].None?)
    ensures color.Some? ==> forall i :: 0 <= i < |values| && values[i].Some? ==>
      r[i] == Some(color.value + values[i].value + AnsiReset)
    ensures forall i :: 0 <= i < |values| ==> r[i] == Painted(values[i], color)
  {
    if color.None? then
      values
    else
      seq(|values|, i requires 0 <= i < |values| =>
        if values[i].None? then None else Some(color.value + values[i].value + AnsiReset))
  }

  /** The characters `[\s:-]`: Ruby's `\s` is space, tab, line feed,
      vertical tab, form feed and carriage return. */
  predicate IsSeparator(c: char) {
    c == ' ' || c == '\t' || c == '\n' || c == '\U{B}' || c == '\U{C}' || c == '\r' || c == ':' || c == '-'
  }

  /** `sub(/[\s:-]+$/, '')` on text without an inner line break: the
      trailing run of separators removed. */
  function TrimSeparators(s: string): (r: string)
    ensures |r| <= |s| && r == s[..|r|]
    ensures r == [] || !IsSeparator(r[|r| - 1])
    ensures forall i :: |r| <= i < |s| ==> IsSeparator(s[i])
  {
    if s != [] && IsSeparator(s[|s| - 1]) then TrimSeparators(s[..|s| - 1]) else s
  }

  /** `split(/[:-]/, 2).first`: the text before the first `:` or `-`. */
  function BeforeColonOrDash(s: string): (r: string)
    ensures |r| <= |s| && r == s[..|r|]
    ensures ':' !in r && '-' !in r
    ensures |r| < |s| ==> s[|r|] == ':' || s[|r|] == '-'
  {
    if s == [] || s[0] == ':' || s[0] == '-' then []
    else
      var rest := BeforeColonOrDash(s[1..]);
      assert s == [s[0]] + s[1..];
      [s[0]] + rest
  }

  /** certificate_name_prefix: nil for an empty name; the part of the name in
      front of its display name, trailing separators dropped, when there is
      such a part; else the part before the first `:` or `-`, stripped. */
  function CertificateNamePrefix(row: Row): (r: Option<string>)
    ensures var name := ToS(Get(row, "name"));
      r.None? <==> name == []
    ensures var name := ToS(Get(row, "name"));
      var display := ToS(Get(row, "display_name"));
      name != [] && display != [] && Strings.EndsWith(name, display)
      && TrimSeparators(name[..|name| - |display|]) != [] ==>
        r == Some(TrimSeparators(name[..|name| - |display|]))
        && Strings.IsPrefix(r.value, name) && !IsSeparator(r.value[|r.value| - 1])
    ensures var name := ToS(Get(row, "name"));
      var display := ToS(Get(row, "display_name"));
      name != [] && !(display != [] && Strings.EndsWith(name, display)
        && TrimSeparators(name[..|name| - |display|]) != []) ==>
        r == Some(Strings.Strip(BeforeColonOrDash(name)))
  {
    var name := ToS(Get(row, "name"));
    var display := ToS(Get(row, "display_name"));
    if name == [] then None
    else
      var prefix := if display != [] && Strings.EndsWith(name, display)
        then TrimSeparators(name[..|name| - |display|]) else [];
      if prefix != [] then Some(prefix)
      else Some(Strings.Strip(BeforeColonOrDash(name)))
  }

  /** The usual certificate naming, `<type>: <display name>`, yields the type. */
  lemma TypeBeforeDisplayName(row: Row, kind: string, display: string)
    requires kind != [] && !IsSeparator(kind[|kind| - 1]) && display != []
    requires ToS(Get(row, "name")) == kind + ": " + display
    requires ToS(Get(row, "display_name")) == display
    ensures CertificateNamePrefix(row) == Some(kind)
  {
    var name := kind + ": " + display;
    assert name[|name| - |display|..] == display;
    assert name[..|name| - |display|] == kind + ": ";
    assert (kind + ": ")[..|kind| + 1] == kind + ":";
    assert (kind + ":")[..|kind|] == kind;
  }

  /** The digits of a whole number, as Integer#to_s prints them. */
  function Digits(n: nat): (r: string)
    ensures r != []
    ensures forall i :: 0 <= i < |r| ==> IsDigit(r[i])
    decreases n
  {
    var d := [('0' as int + n % 10) as char];
    if n < 10 then d else Digits(n / 10) + d
  }

  predicate IsDigit(c: char) {
    '0' <= c <= '9'
  }

  /** Integer#to_s. */
  function Decimal(n: int): string {
    if n < 0 then "-" + Digits(-n) else Digits(n)
  }

  /** The number a run of decimal digits spells. */
  function ReadDigits(s: string): int {
    if s == [] then 0
    else 10 * ReadDigits(s[..|s| - 1]) + (s[|s| - 1] as int - '0' as int)
  }

  /** String#to_i on what Integer#to_s prints. */
  function ReadDecimal(s: string): int {
    if s != [] && s[0] == '-' then -ReadDigits(s[1..]) else ReadDigits(s)
  }

  lemma {:induction false} ReadDigitsOfDigits(n: nat)
    ensures ReadDigits(Digits(n)) == n
    decreases n
  {
    var d := [('0' as int + n % 10) as char];
    if n >= 10 {
      ReadDigitsOfDigits(n / 10);
      var r := Digits(n / 10) + d;
      assert r[..|r| - 1] == Digits(n / 10);
    }
  }

  /** The days text reads back as the number of days. */
  lemma ReadDecimalOfDecimal(n: int)
    ensures ReadDecimal(Decimal(n)) == n
  {
    if n < 0 {
      ReadDigitsOfDigits(-n);
      assert Decimal(n)[1..] == Digits(-n);
    } else {
      ReadDigitsOfDigits(n);
    }
  }

  /** The cell of a value of a formatted row. */
  function CellOf(v: Value): (c: Cell)
    ensures c.None? <==> v == Nil
  {
    if v == Nil then None else Some(ToS(v))
  }

  /** The days_until_expiration cell: the number of days as Integer#to_s
      prints it, or nil. */
  function DaysCell(days: Option<int>): (c: Cell)
    ensures c.None? <==> days.None?
    ensures c.Some? ==> ReadDecimal(c.value) == days.value
  {
    if days.None? then None
    else
      ReadDecimalOfDecimal(days.value);
      Some(Decimal(days.value))
  }

  /** format_rows for one row: every value through to_human_date with the
      date fields, under its own key. */
  function FormatRow(cal: Calendar, fmt: Formatter, row: Row): (r: Row)
    ensures r.Keys == row.Keys
    ensures forall k :: k in row ==> SameStructure(row[k], r[k], DateFields, k)
  {
    var r := map k | k in row :: ToHumanDate(cal, fmt, row[k], DateFields, k);
    assert forall k :: k in row ==> SameStructure(row[k], r[k], DateFields, k) by {
      forall k | k in row
        ensures SameStructure(row[k], r[k], DateFields, k)
      {
        ToHumanDateKeepsStructure(cal, fmt, row[k], DateFields, k);
      }
    }
    r
  }

  /** One certificate line: the heading columns of the formatted row, with
      the days computed and the type cut out of the name, in the row's colour. */
  function CertificateCells(cal: Calendar, fmt: Formatter, now: int, row: Row): (r: seq<Cell>)
    ensures |r| == |CertificateHeadings|
    ensures forall i :: 0 <= i < |r| ==>
      r[i] == Painted(CertificateValues(cal, fmt, now, row)[i], RowColor(cal, now, row))
    ensures r[4].None? <==> DaysUntilExpiration(cal, now, row).None?
    ensures r[1].None? <==> CertificateNamePrefix(row).None?
    ensures RowColor(cal, now, row).Some? && CertificateNamePrefix(row).Some? ==>
      r[1] == Some(RowColor(cal, now, row).value + CertificateNamePrefix(row).value + AnsiReset)
  {
    Colorize(CertificateValues(cal, fmt, now, row), RowColor(cal, now, row))
  }

  /** The uncoloured certificate columns: the days computed, the type cut out
      of the name, and every other column from the formatted row. */
  function CertificateValues(cal: Calendar, fmt: Formatter, now: int, row: Row): (r: seq<Cell>)
    ensures |r| == |CertificateHeadings|
    ensures var formatted := FormatRow(cal, fmt, row);
      r[0] == CellOf(Get(formatted, "display_name"))
      && r[2] == CellOf(Get(formatted, "platform"))
      && r[3] == CellOf(Get(formatted, "expiration_date"))
    ensures r[1] == CertificateNamePrefix(row)
    ensures r[4] == DaysCell(DaysUntilExpiration(cal, now, row))
  {
    var formatted := FormatRow(cal, fmt, row);
    seq(|CertificateHeadings|, i requires 0 <= i < |CertificateHeadings| =>
      var key := CertificateHeadings[i];
      if key == "days_until_expiration" then DaysCell(DaysUntilExpiration(cal, now, row))
      else if key == "type" then CertificateNamePrefix(row)
      else CellOf(Get(formatted, key)))
  }

  /** One profile line; for an INVALID profile the state cell is red
      whatever the colour of the rest of the line. */
  function ProfileCells(cal: Calendar, fmt: Formatter, now: int, row: Row): (r: seq<Cell>)
    ensures |r| == |ProfileHeadings|
    ensures r[5].None? <==> DaysUntilExpiration(cal, now, row).None?
    ensures var state := CellOf(Get(FormatRow(cal, fmt, row), "profile_state"));
      Filtering.IsInvalidState(row) ==>
        r[ProfileStateIndex] == (if state.None? then None else Some(AnsiRed + state.value + AnsiReset))
    ensures var values := ProfileValues(cal, fmt, now, row);
      forall i :: 0 <= i < |r| && (i != ProfileStateIndex || !Filtering.IsInvalidState(row)) ==>
        r[i] == Painted(values[i], RowColor(cal, now, row))
  {
    var values := ProfileValues(cal, fmt, now, row);
    var colored := Colorize(values, RowColor(cal, now, row));
    if Filtering.IsInvalidState(row) then
      var state := values[ProfileStateIndex];
      colored[ProfileStateIndex := if state.None? then None else Some(AnsiRed + state.value + AnsiReset)]
    else colored
  }

  /** The uncoloured profile columns: the days computed, every other column
      from the formatted row under its heading. */
  function ProfileValues(cal: Calendar, fmt: Formatter, now: int, row: Row): (r: seq<Cell>)
    ensures |r| == |ProfileHeadings|
    ensures forall i :: 0 <= i < 5 ==> r[i] == CellOf(Get(FormatRow(cal, fmt, row), ProfileHeadings[i]))
    ensures r[ProfileStateIndex] == CellOf(Get(FormatRow(cal, fmt, row), "profile_state"))
    ensures r[5] == DaysCell(DaysUntilExpiration(cal, now, row))
  {
    var formatted := FormatRow(cal, fmt, row);
    seq(|ProfileHeadings|, i requires 0 <= i < |ProfileHeadings| =>
      var key := ProfileHeadings[i];
      if key == "days_until_expiration" then DaysCell(DaysUntilExpiration(cal, now, row))
      else CellOf(Get(formatted, key)))
  }

  /** `sort_by { |row| sort_key_by_expiration(row) }` on a copy. */
  function SortRows(cal: Calendar, rows: seq<Row>): (r: seq<Row>)
    ensures multiset(r) == multiset(rows)
    ensures Filtering.SortedByExpiration(cal, r)
  {
    if rows == [] then []
    else
      var rest := SortRows(cal, rows[1..]);
      Filtering.InsertKeepsSorted(cal, rows[0], rest);
      assert rows == [rows[0]] + rows[1..];
      Filtering.InsertByExpiration(cal, rows[0], rest)
  }

  function CertificateTable(cal: Calendar, fmt: Formatter, now: int, r: Renderer): (t: Table)
    ensures t.title == "Certificates" && t.headings == CertificateHeadings
    ensures |t.rows| == |r.certificateRows|
    ensures multiset(SortRows(cal, r.certificateRows)) == multiset(r.certificateRows)
    ensures forall i :: 0 <= i < |t.rows| ==> t.rows[i] == CertificateCells(cal, fmt, now, SortRows(cal, r.certificateRows)[i])
  {
    var sorted := SortRows(cal, r.certificateRows);
    assert |sorted| == |multiset(sorted)| == |r.certificateRows|;
    Table("Certificates", CertificateHeadings,
      seq(|sorted|, i requires 0 <= i < |sorted| => CertificateCells(cal, fmt, now, sorted[i])))
  }

  function ProfileTable(cal: Calendar, fmt: Formatter, now: int, r: Renderer): (t: Table)
    ensures t.title == "Profiles" && t.headings == ProfileHeadings
    ensures |t.rows| == |r.profileRows|
    ensures forall i :: 0 <= i < |t.rows| ==> t.rows[i] == ProfileCells(cal, fmt, now, r.profileRows[i])
  {
    Table("Profiles", ProfileHeadings,
      seq(|r.profileRows|, i requires 0 <= i < |r.profileRows| => ProfileCells(cal, fmt, now, r.profileRows[i])))
  }

  /** render: the certificate section, then the profile section, each only
      when its kind is included, separated by a blank line. */
  function Render(cal: Calendar, fmt: Formatter, now: int, layout: Table -> string, r: Renderer): (out: string)
    ensures var certificates := layout(CertificateTable(cal, fmt, now, r));
      var profiles := layout(ProfileTable(cal, fmt, now, r));
      out == if IncludeCertificates(r) && IncludeProfiles(r) then certificates + "\n\n" + profiles
        else if IncludeCertificates(r) then certificates
        else if IncludeProfiles(r) then profiles
        else ""
  {
    var sections := (if IncludeCertificates(r) then [layout(CertificateTable(cal, fmt, now, r))] else [])
      + (if IncludeProfiles(r) then [layout(ProfileTable(cal, fmt, now, r))] else []);
    Strings.Join(sections, "\n\n")
  }
}
