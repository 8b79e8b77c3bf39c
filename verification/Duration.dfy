/** Reading Twitch durations such as 3h15m42s (parseTwitchDuration in backend/vod/catalog.go). */
module Duration {
  predicate IsDigit(c: char) {
    '0' <= c <= '9'
  }

  function Digit(c: char): nat
    requires IsDigit(c)
  {
    (c as int) - ('0' as int)
  }

  predicate AllDigits(s: string) {
    forall i | 0 <= i < |s| :: IsDigit(s[i])
  }

  function Number(s: string): nat
    requires AllDigits(s)
  {
    if s == "" then 0 else Number(s[..|s| - 1]) * 10 + Digit(s[|s| - 1])
  }

  /** The seconds in one of a unit; an unknown unit counts for nothing. */
  function Seconds(unit: char): nat {
    if unit == 'h' then 3600 else if unit == 'm' then 60 else if unit == 's' then 1 else 0
  }

  /** The seconds in s when the digits `pending` come before it. */
  function Scan(s: string, pending: string): nat
    requires AllDigits(pending)
  {
    if s == "" then 0
    else if IsDigit(s[0]) then Scan(s[1..], pending + [s[0]])
    else Number(pending) * Seconds(s[0]) + Scan(s[1..], "")
  }

  function Parse(s: string): nat {
    Scan(s, "")
  }

  // ---- Printing ----

  /** A count of a unit. */
  datatype Group = Group(count: nat, unit: char)

  function Decimal(n: nat): (s: string)
    ensures s != "" && AllDigits(s)
  {
    var last := [(('0' as int) + n % 10) as char];
    if n < 10 then last else Decimal(n / 10) + last
  }

  function Print(groups: seq<Group>): string {
    if groups == [] then "" else Decimal(groups[0].count) + [groups[0].unit] + Print(groups[1..])
  }

  function Total(groups: seq<Group>): nat {
    if groups == [] then 0 else groups[0].count * Seconds(groups[0].unit) + Total(groups[1..])
  }

  /** A duration as Twitch prints it: hours, minutes and seconds, without the leading ones that are zero. */
  function Clock(n: nat): seq<Group> {
    var h, m, s := Group(n / 3600, 'h'), Group(n / 60 % 60, 'm'), Group(n % 60, 's');
    if n >= 3600 then [h, m, s] else if n >= 60 then [m, s] else [s]
  }

  // ---- Reading what was printed ----

  lemma {:induction false} DecimalReadsBack(n: nat)
    ensures Number(Decimal(n)) == n
  {
    var s := Decimal(n);
    if n >= 10 {
      DecimalReadsBack(n / 10);
      assert s[..|s| - 1] == Decimal(n / 10);
    } else {
      assert s[..0] == "";
    }
  }

  lemma {:induction false} ScanDigits(digits: string, s: string, pending: string)
    requires AllDigits(digits) && AllDigits(pending)
    ensures Scan(digits + s, pending) == Scan(s, pending + digits)
  {
    if digits == "" {
      assert digits + s == s && pending + digits == pending;
    } else {
      assert (digits + s)[1..] == digits[1..] + s;
      ScanDigits(digits[1..], s, pending + [digits[0]]);
      assert pending + [digits[0]] + digits[1..] == pending + digits;
    }
  }

  lemma ScanGroup(g: Group, s: string)
    requires !IsDigit(g.unit)
    ensures Parse(Decimal(g.count) + [g.unit] + s) == g.count * Seconds(g.unit) + Parse(s)
  {
    var d, rest := Decimal(g.count), [g.unit] + s;
    assert d + [g.unit] + s == d + rest;
    ScanDigits(d, rest, "");
    assert "" + d == d && rest[1..] == s;
    DecimalReadsBack(g.count);
  }

  /** Any groups, in any order and with any omitted, read back as their total. */
  lemma {:induction false} PrintReadsBack(groups: seq<Group>)
    requires forall i | 0 <= i < |groups| :: !IsDigit(groups[i].unit)
    ensures Parse(Print(groups)) == Total(groups)
  {
    if groups != [] {
      ScanGroup(groups[0], Print(groups[1..]));
      PrintReadsBack(groups[1..]);
    }
  }

  lemma TotalOfThree(a: Group, b: Group, c: Group)
    ensures Total([c]) == c.count * Seconds(c.unit)
    ensures Total([b, c]) == b.count * Seconds(b.unit) + Total([c])
    ensures Total([a, b, c]) == a.count * Seconds(a.unit) + Total([b, c])
  {
    assert [c][1..] == [] && [b, c][1..] == [c] && [a, b, c][1..] == [b, c];
  }

  lemma SplitSeconds(n: nat)
    ensures n == n / 3600 * 3600 + n / 60 % 60 * 60 + n % 60
  {
    assert n / 60 / 60 == n / 3600;
  }

  /** Every duration survives being printed and read. */
  lemma ClockReadsBack(n: nat)
    ensures Parse(Print(Clock(n))) == n
  {
    PrintReadsBack(Clock(n));
    TotalOfThree(Group(n / 3600, 'h'), Group(n / 60 % 60, 'm'), Group(n % 60, 's'));
    SplitSeconds(n);
  }

  // ---- Texts in general ----

  predicate EndsInDigit(s: string) {
    s != "" && IsDigit(s[|s| - 1])
  }

  lemma {:induction false} ScanSum(a: string, b: string, pending: string)
    requires AllDigits(pending) && !EndsInDigit(pending + a)
    ensures Scan(a + b, pending) == Scan(a, pending) + Scan(b, "")
    decreases |a|
  {
    if a == "" {
      assert a + b == b && pending + a == pending;
    } else {
      assert (a + b)[1..] == a[1..] + b;
      if IsDigit(a[0]) {
        assert pending + [a[0]] + a[1..] == pending + a;
        ScanSum(a[1..], b, pending + [a[0]]);
      } else {
        ScanSum(a[1..], b, "");
      }
    }
  }

  /** Two texts read one after the other add up, unless a number is cut in two. */
  lemma PartsAddUp(a: string, b: string)
    requires !EndsInDigit(a)
    ensures Parse(a + b) == Parse(a) + Parse(b)
  {
    assert "" + a == a;
    ScanSum(a, b, "");
  }

  /** So the order of whole groups does not matter, and digits without a unit at the end count for nothing. */
  lemma OrderAndTrailingDigits(a: string, b: string, digits: string)
    requires !EndsInDigit(a) && !EndsInDigit(b) && AllDigits(digits)
    ensures Parse(a + b) == Parse(b + a)
    ensures Parse(a + digits) == Parse(a)
  {
    PartsAddUp(a, b);
    PartsAddUp(b, a);
    PartsAddUp(a, digits);
    ScanDigits(digits, "", "");
    assert digits + "" == digits;
  }

  // ---- The code ----

  method ParseTwitchDuration(s: string) returns (total: nat)
    ensures total == Parse(s)
  {
    total := 0;
    var cur := "";
    for i := 0 to |s|
      invariant AllDigits(cur)
      invariant Parse(s) == total + Scan(s[i..], cur)
    {
      assert s[i..][1..] == s[i + 1..];
      if IsDigit(s[i]) {
        cur := cur + [s[i]];
        continue;
      }
      if cur == "" {
        continue;
      }
      var n := 0;
      for j := 0 to |cur|
        invariant n == Number(cur[..j])
      {
        assert cur[..j + 1][..j] == cur[..j];
        n := n * 10 + Digit(cur[j]);
      }
      assert cur[..|cur|] == cur;
      match s[i] {
        case 'h' => total := total + n * 3600;
        case 'm' => total := total + n * 60;
        case 's' => total := total + n;
        case _ =>
      }
      cur := "";
    }
  }
}
