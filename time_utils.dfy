/** Date handling for rows (lib/csa/time_utils.rb). Instants are integer
    seconds since the Unix epoch; the current instant is a parameter, and the
    library parsers are functions handed in through a Calendar. */
module TimeUtils {
  import opened Wrappers
  import opened Values

  const SecondsPerDay: int := 24 * 60 * 60

  /** What one library parser does with a string. */
  datatype Attempt = Parsed(instant: int) | ArgumentError | OtherError

  /** The error a call lets escape. */
  datatype Raised = RaisedArgumentError | RaisedOtherError

  /** The date library: Time.iso8601, Time.parse and the local zone's offset
      from UTC in seconds (Date#to_time gives local midnight). */
  datatype Calendar = Calendar(iso8601: string -> Attempt, lenient: string -> Attempt, utcOffset: int)

  /** strftime with the caller's format: on a UTC Time and on a Date (day number). */
  datatype Formatter = Formatter(utcTime: int -> string, date: int -> string)

  /** parse_string_datetime AS WRITTEN. Its second `rescue` guards only the
      `Time.iso8601` call: an error raised by `Time.parse` inside the
      `rescue ArgumentError` handler escapes. */
  function ParseStringDatetimeAsWritten(cal: Calendar, s: string): (r: Result<Option<int>, Raised>)
    ensures r.Failure? <==> cal.iso8601(s).ArgumentError? && !cal.lenient(s).Parsed?
    ensures r == Success(None) <==> cal.iso8601(s).OtherError?
  {
    match cal.iso8601(s)
    case Parsed(t) => Success(Some(t))
    case OtherError => Success(None)
    case ArgumentError =>
      match cal.lenient(s)
      case Parsed(t) => Success(Some(t))
      case ArgumentError => Failure(RaisedArgumentError)
      case OtherError => Failure(RaisedOtherError)
  }

  /** parse_string_datetime as evidently intended: strict ISO-8601 first, the
      lenient parser only after an ArgumentError, and nil for text neither accepts. */
  function ParseStringDatetime(cal: Calendar, s: string): (r: Option<int>)
    ensures ParseStringDatetimeAsWritten(cal, s).Success? ==> r == ParseStringDatetimeAsWritten(cal, s).value
    ensures ParseStringDatetimeAsWritten(cal, s).Failure? ==> r == None
    ensures r.Some? ==> (cal.iso8601(s).Parsed? && r == Some(cal.iso8601(s).instant)) || (cal.iso8601(s).ArgumentError? && cal.lenient(s).Parsed? && r == Some(cal.lenient(s).instant))
  {
    match cal.iso8601(s)
    case Parsed(t) => Some(t)
    case ArgumentError => if cal.lenient(s).Parsed? then Some(cal.lenient(s).instant) else None
    case OtherError => None
  }

  /** Text that both parsers reject makes the as-written parser raise where the
      intended one answers nil. */
  lemma RejectedTextRaises(cal: Calendar, s: string)
    requires cal.iso8601(s) == ArgumentError && cal.lenient(s) == ArgumentError
    ensures ParseStringDatetimeAsWritten(cal, s) == Failure(RaisedArgumentError)
    ensures ParseStringDatetime(cal, s) == None
  {
  }

  /** parse_datetime: a Time unchanged, Date and DateTime converted, a String
      parsed, nil for every other value. */
  function ParseDatetime(cal: Calendar, v: Value): (r: Option<int>)
    ensures v.TimeV? ==> r == Some(v.instant)
    ensures v.DateTimeV? ==> r == Some(v.at)
    ensures v.DateV? ==> r == Some(v.day * SecondsPerDay - cal.utcOffset)
    ensures v.Str? ==> r == ParseStringDatetime(cal, v.s)
    ensures !(v.TimeV? || v.DateTimeV? || v.DateV? || v.Str?) ==> r == None
  {
    match v
    case TimeV(t) => Some(t)
    case DateTimeV(t) => Some(t)
    case DateV(d) => Some(d * SecondsPerDay - cal.utcOffset)
    case Str(s) => ParseStringDatetime(cal, s)
    case _ => None
  }

  /** The parsed `expiration_date` of a row. */
  function Expiration(cal: Calendar, row: Row): Option<int> {
    ParseDatetime(cal, Get(row, "expiration_date"))
  }

  /** expired?: the expiration parses and lies strictly before now. */
  predicate Expired(cal: Calendar, now: int, row: Row)
    ensures Expired(cal, now, row) <==> exists t :: Expiration(cal, row) == Some(t) && t < now
  {
    var expiration := Expiration(cal, row);
    expiration.Some? && expiration.value < now
  }

  /** expiring_soon?: the expiration parses and is at most the window away.
      It does not exclude instants already past. */
  predicate ExpiringSoon(cal: Calendar, now: int, row: Row, windowDays: int)
    ensures ExpiringSoon(cal, now, row, windowDays) <==>
      exists t :: Expiration(cal, row) == Some(t) && t <= now + windowDays * SecondsPerDay
  {
    var expiration := Expiration(cal, row);
    expiration.Some? && expiration.value <= now + windowDays * SecondsPerDay
  }

  /** With a window of zero days or more, an expired row is also expiring soon. */
  lemma ExpiredIsExpiringSoon(cal: Calendar, now: int, row: Row, windowDays: int)
    requires windowDays >= 0 && Expired(cal, now, row)
    ensures ExpiringSoon(cal, now, row, windowDays)
  {
    var t := Expiration(cal, row).value;
    assert t <= now + windowDays * SecondsPerDay;
  }

  /** The sort key `[0, epoch]` for a dated row and `[1, Float::INFINITY]` for
      an undated one. */
  datatype SortKey = Dated(epoch: int) | Undated

  /** Array `<=>` on the two-element keys, as `<=`. */
  predicate KeyLe(a: SortKey, b: SortKey) {
    match (a, b)
    case (Dated(x), Dated(y)) => x <= y
    case (Dated(_), Undated) => true
    case (Undated, Dated(_)) => false
    case (Undated, Undated) => true
  }

  lemma KeyLeTotal(a: SortKey, b: SortKey)
    ensures KeyLe(a, b) || KeyLe(b, a)
  {
  }

  lemma KeyLeTransitive(a: SortKey, b: SortKey, c: SortKey)
    requires KeyLe(a, b) && KeyLe(b, c)
    ensures KeyLe(a, c)
  {
  }

  /** sort_key_by_expiration: every dated key sorts before every undated one,
      and dated keys sort by instant. */
  function SortKeyByExpiration(cal: Calendar, row: Row): (k: SortKey)
    ensures k.Undated? <==> Expiration(cal, row).None?
    ensures k.Dated? ==> Expiration(cal, row) == Some(k.epoch)
  {
    match Expiration(cal, row)
    case Some(t) => Dated(t)
    case None => Undated
  }

  lemma DatedSortsFirst(cal: Calendar, dated: Row, undated: Row)
    requires Expiration(cal, dated).Some? && Expiration(cal, undated).None?
    ensures KeyLe(SortKeyByExpiration(cal, dated), SortKeyByExpiration(cal, undated))
    ensures !KeyLe(SortKeyByExpiration(cal, undated), SortKeyByExpiration(cal, dated))
  {
  }

  /** The UTC calendar day (days since 1970-01-01) holding an instant. */
  function UtcDay(t: int): int {
    t / SecondsPerDay
  }

  lemma UtcDayMonotonic(a: int, b: int)
    requires a <= b
    ensures UtcDay(a) <= UtcDay(b)
  {
  }

  /** days_until_expiration: nil without a parseable date, else the difference
      of the UTC calendar days, time of day ignored. */
  function DaysUntilExpiration(cal: Calendar, now: int, row: Row): (r: Option<int>)
    ensures r.None? <==> Expiration(cal, row).None?
    ensures r.Some? ==> r.value == UtcDay(Expiration(cal, row).value) - UtcDay(now)
  {
    match Expiration(cal, row)
    case Some(t) => Some(UtcDay(t) - UtcDay(now))
    case None => None
  }

  /** The day count agrees with the classification: an expired row is at most
      zero days away, a negative count means expired, and a row expiring within
      the window but not expired is between zero and window days away. */
  lemma DaysUntilExpirationAgrees(cal: Calendar, now: int, row: Row, windowDays: int)
    requires Expiration(cal, row).Some? && windowDays >= 0
    ensures Expired(cal, now, row) ==> DaysUntilExpiration(cal, now, row).value <= 0
    ensures DaysUntilExpiration(cal, now, row).value < 0 ==> Expired(cal, now, row)
    ensures !Expired(cal, now, row) && ExpiringSoon(cal, now, row, windowDays) ==>
      0 <= DaysUntilExpiration(cal, now, row).value <= windowDays
  {
    var t := Expiration(cal, row).value;
    if t < now {
      UtcDayMonotonic(t, now);
    } else {
      UtcDayMonotonic(now, t);
      if t <= now + windowDays * SecondsPerDay {
        UtcDayMonotonic(t, now + windowDays * SecondsPerDay);
        assert UtcDay(now + windowDays * SecondsPerDay) == UtcDay(now) + windowDays;
      }
    }
  }

  /** Whether to_human_date kept the structure of its input: arrays keep their
      length, hashes their keys in order, and strings under a key that is not
      a date field are unchanged. */
  predicate SameStructure(v: Value, r: Value, dateFields: seq<string>, key: string)
    decreases v
  {
    match v
    case Arr(items) =>
      r.Arr? && |r.items| == |items|
      && forall i :: 0 <= i < |items| ==> SameStructure(items[i], r.items[i], dateFields, key)
    case Hash(entries) =>
      r.Hash? && |r.entries| == |entries|
      && forall i :: 0 <= i < |entries| ==>
        r.entries[i].0 == entries[i].0 && SameStructure(entries[i].1, r.entries[i].1, dateFields, entries[i].0)
    case Str(_) => r.Str? && (key !in dateFields ==> r == v)
    case TimeV(_) => r.Str?
    case DateTimeV(_) => r.Str?
    case DateV(_) => r.Str?
    case _ => r == v
  }

  /** to_human_date: dates become formatted text, strings under a date field
      that parse become formatted text, arrays and hashes are rebuilt element
      by element, and anything else is returned as it is. */
  function ToHumanDate(cal: Calendar, fmt: Formatter, v: Value, dateFields: seq<string>, key: string): (r: Value)
    decreases v
  {
    match v
    case TimeV(t) => Str(fmt.utcTime(t))
    case DateTimeV(t) => Str(fmt.utcTime(t))
    case DateV(d) => Str(fmt.date(d))
    case Str(s) =>
      var parsed := if key in dateFields then ParseStringDatetime(cal, s) else None;
      if parsed.Some? then Str(fmt.utcTime(parsed.value)) else v
    case Arr(items) =>
      Arr(seq(|items|, i requires 0 <= i < |items| => ToHumanDate(cal, fmt, items[i], dateFields, key)))
    case Hash(entries) =>
      Hash(seq(|entries|, i requires 0 <= i < |entries| =>
        (entries[i].0, ToHumanDate(cal, fmt, entries[i].1, dateFields, entries[i].0))))
    case _ => v
  }

  lemma {:induction false} ToHumanDateKeepsStructure(cal: Calendar, fmt: Formatter, v: Value, dateFields: seq<string>, key: string)
    ensures SameStructure(v, ToHumanDate(cal, fmt, v, dateFields, key), dateFields, key)
    decreases v
  {
    match v
    case Arr(items) =>
      forall i | 0 <= i < |items|
        ensures SameStructure(items[i], ToHumanDate(cal, fmt, v, dateFields, key).items[i], dateFields, key)
      {
        ToHumanDateKeepsStructure(cal, fmt, items[i], dateFields, key);
      }
    case Hash(entries) =>
      forall i | 0 <= i < |entries|
        ensures SameStructure(entries[i].1, ToHumanDate(cal, fmt, v, dateFields, key).entries[i].1, dateFields, entries[i].0)
      {
        ToHumanDateKeepsStructure(cal, fmt, entries[i].1, dateFields, entries[i].0);
      }
    case _ =>
  }
}
