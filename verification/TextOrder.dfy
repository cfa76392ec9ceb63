// Lexicographic order of text, and why ISO timestamps sort like the times they render.
module TextOrder {
  import opened Calendar

  predicate Less(a: string, b: string) {
    b != "" && (a == "" || a[0] < b[0] || (a[0] == b[0] && Less(a[1..], b[1..])))
  }

  lemma {:induction false} LessIsAsymmetric(a: string, b: string)
    ensures Less(a, b) ==> !Less(b, a) && a != b
  {
    if a != "" && b != "" && a[0] == b[0] { LessIsAsymmetric(a[1..], b[1..]); }
  }

  lemma {:induction false} LessIsTotal(a: string, b: string)
    ensures Less(a, b) || Less(b, a) || a == b
  {
    if a != "" && b != "" && a[0] == b[0] {
      LessIsTotal(a[1..], b[1..]);
      assert a == [a[0]] + a[1..] && b == [b[0]] + b[1..];
    }
  }

  lemma {:induction false} LessIsTransitive(a: string, b: string, c: string)
    requires Less(a, b) && Less(b, c)
    ensures Less(a, c)
  {
    if a != "" && a[0] == b[0] == c[0] { LessIsTransitive(a[1..], b[1..], c[1..]); }
  }

  lemma {:induction false} LessByPrefix(a: string, b: string, x: string, y: string)
    requires |a| == |b| && (Less(a, b) || (a == b && Less(x, y)))
    ensures Less(a + x, b + y)
  {
    if a == "" {
      assert a + x == x && b + y == y;
    } else {
      assert (a + x)[1..] == a[1..] + x && (b + y)[1..] == b[1..] + y;
      if a[0] == b[0] {
        assert a == b ==> a[1..] == b[1..];
        LessByPrefix(a[1..], b[1..], x, y);
      }
    }
  }

  function Power10(n: nat): (p: nat)
    ensures p >= 1
  {
    if n == 0 then 1 else 10 * Power10(n - 1)
  }

  function Digit(d: nat): char
    requires d < 10
  {
    '0' + d as char
  }

  // The last `width` decimal digits of n.
  function Digits(n: nat, width: nat): (s: string)
    ensures |s| == width
  {
    if width == 0 then "" else Digits(n / 10, width - 1) + [Digit(n % 10)]
  }

  lemma {:induction false} DigitsOrder(n: nat, m: nat, width: nat)
    requires n < m < Power10(width)
    ensures Less(Digits(n, width), Digits(m, width))
  {
    if width > 0 {
      var a, b := Digits(n / 10, width - 1), Digits(m / 10, width - 1);
      if n / 10 < m / 10 {
        DigitsOrder(n / 10, m / 10, width - 1);
      }
      LessByPrefix(a, b, [Digit(n % 10)], [Digit(m % 10)]);
    }
  }

  // Microseconds since 1970, within the range of datetime.
  type Moment = t: int | 0 <= t < 253_402_300_800_000_000

  // The fraction is left out when it is zero, as datetime.isoformat does.
  function Fraction(micro: nat): string {
    if micro == 0 then "+00:00" else "." + Digits(micro, 6) + "+00:00"
  }

  // YYYY-MM-DD, and what comes after it.
  function DateText(d: Date, rest: string): string {
    Digits(d.year, 4) + ("-" + (Digits(d.month, 2) + ("-" + (Digits(d.day, 2) + rest))))
  }

  datatype Clock = Clock(hour: nat, minute: nat, second: nat)

  function ClockOf(seconds: nat): Clock {
    Clock(seconds / 3600, seconds / 60 % 60, seconds % 60)
  }

  // HH:MM:SS, and what comes after it.
  function TimeText(c: Clock, rest: string): string {
    Digits(c.hour, 2) + (":" + (Digits(c.minute, 2) + (":" + (Digits(c.second, 2) + rest))))
  }

  const DAY: nat := 86_400

  function DateAt(time: Moment): Date {
    DateOf(EPOCH + time / 1_000_000 / DAY)
  }

  function IsoFormat(time: Moment): string {
    DateText(DateAt(time), "T" + TimeText(ClockOf(time / 1_000_000 % DAY), Fraction(time % 1_000_000)))
  }

  lemma FractionOrders(m: nat, n: nat)
    requires m < n < 1_000_000
    ensures Less(Fraction(m), Fraction(n))
  {
    if m == 0 {
      assert '+' < '.';
    } else {
      assert Power10(6) == 1_000_000 by { assert Power10(3) == 1_000; assert Power10(5) == 100_000; }
      DigitsOrder(m, n, 6);
      LessByPrefix(Digits(m, 6), Digits(n, 6), "+00:00", "+00:00");
      LessByPrefix(".", ".", Digits(m, 6) + "+00:00", Digits(n, 6) + "+00:00");
      assert Fraction(m) == "." + (Digits(m, 6) + "+00:00") && Fraction(n) == "." + (Digits(n, 6) + "+00:00");
    }
  }

  lemma FieldOrders(a: nat, b: nat, width: nat, x: string, y: string)
    requires a < b < Power10(width) || (a == b && Less(x, y))
    ensures Less(Digits(a, width) + x, Digits(b, width) + y)
  {
    if a < b { DigitsOrder(a, b, width); }
    LessByPrefix(Digits(a, width), Digits(b, width), x, y);
  }

  lemma MarkedFieldOrders(mark: char, a: nat, b: nat, x: string, y: string)
    requires a < b < 100 || (a == b && Less(x, y))
    ensures Less([mark] + (Digits(a, 2) + x), [mark] + (Digits(b, 2) + y))
  {
    assert Power10(2) == 100;
    FieldOrders(a, b, 2, x, y);
    LessByPrefix([mark], [mark], Digits(a, 2) + x, Digits(b, 2) + y);
  }

  lemma DateTextOrders(c: Date, d: Date, x: string, y: string)
    requires Valid(c) && Valid(d) && c.year <= 9999 && d.year <= 9999
    requires Earlier(c, d) || (c == d && Less(x, y))
    ensures Less(DateText(c, x), DateText(d, y))
  {
    hide Less, Digits;
    assert Power10(4) == 10_000;
    var day, day' := Digits(c.day, 2) + x, Digits(d.day, 2) + y;
    if c.year == d.year {
      if c.month == d.month { MarkedFieldOrders('-', c.day, d.day, x, y); }
      MarkedFieldOrders('-', c.month, d.month, "-" + day, "-" + day');
    }
    FieldOrders(c.year, d.year, 4, "-" + (Digits(c.month, 2) + ("-" + day)), "-" + (Digits(d.month, 2) + ("-" + day')));
  }

  lemma ClockIsMonotonic(m: nat, n: nat)
    requires m < n < DAY
    ensures var c, d := ClockOf(m), ClockOf(n);
      && c.hour <= d.hour < 24 && c.minute < 60 && d.minute < 60 && c.second < 60 && d.second < 60
      && (c.hour == d.hour ==> c.minute <= d.minute)
      && (c.hour == d.hour && c.minute == d.minute ==> c.second < d.second)
  {
    assert m == 60 * (m / 60) + m % 60 && n == 60 * (n / 60) + n % 60;
    assert m / 60 == 60 * (m / 3600) + m / 60 % 60 && n / 60 == 60 * (n / 3600) + n / 60 % 60;
  }

  lemma TimeTextOrders(m: nat, n: nat, x: string, y: string)
    requires m < n < DAY || (m == n < DAY && Less(x, y))
    ensures Less(TimeText(ClockOf(m), x), TimeText(ClockOf(n), y))
  {
    hide Less, Digits, ClockOf;
    assert Power10(2) == 100;
    if m < n { ClockIsMonotonic(m, n); }
    var c, d := ClockOf(m), ClockOf(n);
    var second, second' := Digits(c.second, 2) + x, Digits(d.second, 2) + y;
    if c.hour == d.hour {
      if c.minute == d.minute { MarkedFieldOrders(':', c.second, d.second, x, y); }
      MarkedFieldOrders(':', c.minute, d.minute, ":" + second, ":" + second');
    }
    FieldOrders(c.hour, d.hour, 2, ":" + (Digits(c.minute, 2) + (":" + second)),
      ":" + (Digits(d.minute, 2) + (":" + second')));
  }

  lemma DatesFit(time: Moment)
    ensures Valid(DateAt(time)) && DateAt(time).year <= 9999
  {
    hide DateOf;
    YearsUpTo9999(EPOCH + time / 1_000_000 / DAY);
  }

  lemma DateOnDay(time: Moment, d: Date)
    requires Valid(d) && Ordinal(d) == EPOCH + time / 1_000_000 / DAY
    ensures DateAt(time) == d
  {
    hide DateOf, Ordinal;
    DateOfOrdinal(d);
  }

  lemma FirstSecondsText(start: Moment)
    requires start < 1_000_000
    ensures IsoFormat(start) == "1970-01-01T00:00:00" + Fraction(start)
  {
    hide DateAt, Digits, Less, Fraction, Ordinal;
    EpochIsIn1970();
    DateOnDay(start, Date(1970, 1, 1));
    SomeDigits();
    var rest := Fraction(start);
    assert TimeText(Clock(0, 0, 0), rest) == "00:00:00" + rest;
    assert "01" + ("T" + ("00:00:00" + rest)) == "01T00:00:00" + rest;
    assert "01" + ("-" + ("01T00:00:00" + rest)) == "01-01T00:00:00" + rest;
  }

  lemma SomeDigits()
    ensures Digits(1970, 4) == "1970" && Digits(1, 2) == "01" && Digits(0, 2) == "00"
  {
    assert Digits(19, 2) == "19" by { assert Digits(1, 1) == "1"; }
    assert Digits(197, 3) == "197";
    assert Digits(0, 1) == "0";
  }

  // The text of an earlier moment is less: date, time of day and fraction decide in this order.
  lemma IsoFormatOrders(s: Moment, t: Moment)
    requires s < t
    ensures Less(IsoFormat(s), IsoFormat(t))
  {
    hide Less, DateOf, DateText, TimeText, Fraction, Digits, ClockOf;
    DatesFit(s);
    DatesFit(t);
    var m, n := s / 1_000_000, t / 1_000_000;
    var x := TimeText(ClockOf(m % DAY), Fraction(s % 1_000_000));
    var y := TimeText(ClockOf(n % DAY), Fraction(t % 1_000_000));
    if m / DAY < n / DAY {
      DateOfIsMonotonic(EPOCH + m / DAY, EPOCH + n / DAY);
    } else {
      if m == n { FractionOrders(s % 1_000_000, t % 1_000_000); }
      TimeTextOrders(m % DAY, n % DAY, Fraction(s % 1_000_000), Fraction(t % 1_000_000));
      LessByPrefix("T", "T", x, y);
    }
    DateTextOrders(DateAt(s), DateAt(t), "T" + x, "T" + y);
  }
}
