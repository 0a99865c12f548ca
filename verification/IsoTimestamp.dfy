/**
  UTC timestamps as stored text. Python's `isoformat` leaves the fraction out when it is
  zero and writes six digits otherwise, always followed by "+00:00". Event expiry compares
  the stored text in SQL and the parsed times in Python; this module shows they agree.
 */
module IsoTimestamp {
  import opened TextOrder

  datatype Utc = Utc(year: nat, month: nat, day: nat, hour: nat, minute: nat, second: nat, micro: nat) {
    predicate Valid() {
      && 1 <= year <= 9999 && 1 <= month <= 12 && 1 <= day <= 31
      && hour < 24 && minute < 60 && second < 60 && micro < 1000000
    }
  }

  /** Chronological order of two UTC datetimes: field by field. */
  predicate Before(a: Utc, b: Utc) {
    if a.year != b.year then a.year < b.year
    else if a.month != b.month then a.month < b.month
    else if a.day != b.day then a.day < b.day
    else if a.hour != b.hour then a.hour < b.hour
    else if a.minute != b.minute then a.minute < b.minute
    else if a.second != b.second then a.second < b.second
    else a.micro < b.micro
  }

  function Power10(w: nat): nat {
    if w == 0 then 1 else 10 * Power10(w - 1)
  }

  /** `n` in exactly `w` decimal digits. */
  function Digits(n: nat, w: nat): (text: string)
    ensures |text| == w
  {
    if w == 0 then "" else Digits(n / 10, w - 1) + ['0' + (n % 10) as char]
  }

  function Fraction(t: Utc): string { if t.micro == 0 then "+00:00" else "." + (Digits(t.micro, 6) + "+00:00") }
  function FromSecond(t: Utc): string { Digits(t.second, 2) + Fraction(t) }
  function FromMinute(t: Utc): string { Digits(t.minute, 2) + (":" + FromSecond(t)) }
  function FromHour(t: Utc): string { Digits(t.hour, 2) + (":" + FromMinute(t)) }
  function FromDay(t: Utc): string { Digits(t.day, 2) + ("T" + FromHour(t)) }
  function FromMonth(t: Utc): string { Digits(t.month, 2) + ("-" + FromDay(t)) }

  function Text(t: Utc): string {
    Digits(t.year, 4) + ("-" + FromMonth(t))
  }

  lemma {:induction false} DigitsInOrder(n: nat, m: nat, w: nat)
    requires n < Power10(w) && m < Power10(w)
    ensures Less(Digits(n, w), Digits(m, w)) <==> n < m
    ensures Digits(n, w) == Digits(m, w) <==> n == m
  {
    if w > 0 {
      DigitsInOrder(n / 10, m / 10, w - 1);
      var p, q := Digits(n / 10, w - 1), Digits(m / 10, w - 1);
      var d, e := ['0' + (n % 10) as char], ['0' + (m % 10) as char];
      if p == q {
        LessAfterPrefix(p, d, e);
        assert Less(d, e) <==> d[0] < e[0];
        assert (p + d)[|p|] == d[0] && (p + e)[|p|] == e[0];
      } else {
        LessByPrefix(p, q, d, e);
        assert (p + d)[..|p|] == p && (q + e)[..|q|] == q;
      }
    }
  }

  /** A fixed-width field decides the order, or passes it on to what follows. */
  lemma {:induction false} FieldInOrder(n: nat, m: nat, w: nat, separator: string, a: string, b: string)
    requires n < Power10(w) && m < Power10(w)
    ensures Less(Digits(n, w) + (separator + a), Digits(m, w) + (separator + b)) <==> n < m || (n == m && Less(a, b))
  {
    DigitsInOrder(n, m, w);
    if n == m {
      LessAfterPrefix(Digits(n, w), separator + a, separator + b);
      LessAfterPrefix(separator, a, b);
    } else {
      LessByPrefix(Digits(n, w), Digits(m, w), separator + a, separator + b);
    }
  }

  /** The absent fraction sorts first because "+" precedes "." in code-point order. */
  lemma FractionInOrder(a: Utc, b: Utc)
    requires a.micro < 1000000 && b.micro < 1000000
    ensures Less(Fraction(a), Fraction(b)) <==> a.micro < b.micro
  {
    assert Power10(6) == 1000000 by {
      assert Power10(3) == 1000;
      assert Power10(4) == 10000;
      assert Power10(5) == 100000;
    }
    if a.micro != 0 && b.micro != 0 {
      var x, y := Digits(a.micro, 6) + "+00:00", Digits(b.micro, 6) + "+00:00";
      LessAfterPrefix(".", x, y);
      FieldInOrder(a.micro, b.micro, 6, "+00:00", "", "");
      assert "+00:00" + "" == "+00:00";
    } else if a.micro == 0 && b.micro == 0 {
      LessIrreflexive("+00:00");
    } else {
      assert Fraction(a)[0] != Fraction(b)[0];
    }
  }

  lemma TimeInOrder(a: Utc, b: Utc)
    requires a.Valid() && b.Valid()
    ensures Less(FromHour(a), FromHour(b)) <==>
            Before(a.(year := 1, month := 1, day := 1), b.(year := 1, month := 1, day := 1))
  {
    assert Power10(2) == 100;
    FractionInOrder(a, b);
    FieldInOrder(a.second, b.second, 2, "", Fraction(a), Fraction(b));
    assert "" + Fraction(a) == Fraction(a) && "" + Fraction(b) == Fraction(b);
    FieldInOrder(a.minute, b.minute, 2, ":", FromSecond(a), FromSecond(b));
    FieldInOrder(a.hour, b.hour, 2, ":", FromMinute(a), FromMinute(b));
  }

  /** The text order of stored timestamps is their chronological order, strictly. */
  lemma TextInOrder(a: Utc, b: Utc)
    requires a.Valid() && b.Valid()
    ensures Less(Text(a), Text(b)) <==> Before(a, b)
    ensures Text(a) == Text(b) <==> a == b
  {
    TextOrderIsChronological(a, b);
    TextOrderIsChronological(b, a);
    LessIrreflexive(Text(a));
  }

  lemma TextOrderIsChronological(a: Utc, b: Utc)
    requires a.Valid() && b.Valid()
    ensures Less(Text(a), Text(b)) <==> Before(a, b)
  {
    assert Power10(2) == 100;
    assert Power10(4) == 10000 by { assert Power10(3) == 1000; }
    TimeInOrder(a, b);
    FieldInOrder(a.day, b.day, 2, "T", FromHour(a), FromHour(b));
    FieldInOrder(a.month, b.month, 2, "-", FromDay(a), FromDay(b));
    FieldInOrder(a.year, b.year, 4, "-", FromMonth(a), FromMonth(b));
  }

  /** A row of the event table: its timestamp column beside the event's own time. */
  datatype Row = Row(text: string, at: Utc)

  predicate Stored(rows: seq<Row>) {
    forall r :: r in rows ==> r.at.Valid() && r.text == Text(r.at)
  }

  /** DELETE ... WHERE timestamp < cutoff, on text. */
  function DeleteByText(rows: seq<Row>, cutoff: string): seq<Row> {
    if rows == [] then []
    else (if Less(rows[0].text, cutoff) then [] else [rows[0]]) + DeleteByText(rows[1..], cutoff)
  }

  /** The datetime filter over the rows read back. */
  function RetainByTime(rows: seq<Row>, cutoff: Utc): seq<Row> {
    if rows == [] then []
    else (if Before(rows[0].at, cutoff) then [] else [rows[0]]) + RetainByTime(rows[1..], cutoff)
  }

  /** Expiring by text keeps exactly the rows that expiring by time keeps, so the filter after it is idle. */
  lemma {:induction false} TextExpiryIsTimeExpiry(rows: seq<Row>, cutoff: Utc)
    requires Stored(rows) && cutoff.Valid()
    ensures DeleteByText(rows, Text(cutoff)) == RetainByTime(rows, cutoff)
    ensures RetainByTime(DeleteByText(rows, Text(cutoff)), cutoff) == DeleteByText(rows, Text(cutoff))
  {
    if rows != [] {
      assert rows[0] in rows;
      TextInOrder(rows[0].at, cutoff);
      TextExpiryIsTimeExpiry(rows[1..], cutoff);
      var rest := RetainByTime(rows[1..], cutoff);
      assert ([rows[0]] + rest)[1..] == rest;
      assert [] + rest == rest;
    }
  }

  /** ORDER BY timestamp text lists the rows chronologically, and only that order does. */
  lemma TextSortIsChronological(rows: seq<Row>)
    requires Stored(rows)
    ensures (forall i, j :: 0 <= i < j < |rows| ==> !Less(rows[j].text, rows[i].text)) <==>
            (forall i, j :: 0 <= i < j < |rows| ==> !Before(rows[j].at, rows[i].at))
  {
    forall i, j | 0 <= i < j < |rows| ensures Less(rows[j].text, rows[i].text) <==> Before(rows[j].at, rows[i].at) {
      assert rows[i] in rows && rows[j] in rows;
      TextInOrder(rows[j].at, rows[i].at);
    }
  }

  /** With a "Z" suffix the same scheme would misorder: "Z" follows "." in code-point order. */
  lemma {:induction false} ZuluSuffixWouldMisorder(whole: string)
    ensures Less(whole + ".500000Z", whole + "Z")
  {
    LessAfterPrefix(whole, ".500000Z", "Z");
  }
}
