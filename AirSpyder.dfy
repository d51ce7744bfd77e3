/** air_spyder.py: the month list a city's history is crawled for. Months are
    numbered n = 12 * year + (month - 1); date_range walks day by day from the
    first of its start month with datetime's proleptic Gregorian calendar and
    keeps the "%Y%m" renderings. The page scraping and the browser are not part
    of this model. */
module AirSpyder {
  import opened Common

  // ----- the calendar -----

  predicate IsLeap(year: int)
  {
    year % 4 == 0 && (year % 100 != 0 || year % 400 == 0)
  }

  /** The number of days of month n. */
  function DaysIn(n: int): (d: nat)
    ensures 28 <= d <= 31
  {
    var month := n % 12 + 1;
    if month == 2 then (if IsLeap(n / 12) then 29 else 28)
    else if month == 4 || month == 6 || month == 9 || month == 11 then 30
    else 31
  }

  /** The days from the first of month a to the first of month b (negative when b < a). */
  function DaysBetween(a: int, b: int): int
    decreases if a <= b then b - a else a - b
  {
    if a == b then 0
    else if a < b then DaysIn(a) + DaysBetween(a + 1, b)
    else DaysBetween(a, b + 1) - DaysIn(b)
  }

  /** The month of the day i days after the first of month n (`start + timedelta(i)`). */
  function MonthAtDay(n: int, i: int): int
    decreases if i < 0 then 1 else 0, if i < 0 then -i else i
  {
    if i < 0 then MonthAtDay(n - 1, i + DaysIn(n - 1))
    else if i < DaysIn(n) then n
    else MonthAtDay(n + 1, i - DaysIn(n))
  }

  lemma {:induction false} DaysBetweenSign(a: int, b: int)
    ensures a < b ==> DaysBetween(a, b) >= 28 * (b - a)
    ensures b <= a ==> DaysBetween(a, b) <= 0
    decreases if a <= b then b - a else a - b
  {
    if a < b {
      DaysBetweenSign(a + 1, b);
    } else if b < a {
      DaysBetweenSign(a, b + 1);
    }
  }

  lemma {:induction false} DaysBetweenSplit(a: int, m: int, b: int)
    requires a <= m <= b
    ensures DaysBetween(a, b) == DaysBetween(a, m) + DaysBetween(m, b)
    decreases m - a
  {
    if a < m {
      DaysBetweenSplit(a + 1, m, b);
    }
  }

  /** Walking forward from month a, the days before the first of b fall in [a, b). */
  lemma {:induction false} MonthAtDayForward(a: int, b: int, i: int)
    requires 0 <= i < DaysBetween(a, b)
    ensures a <= MonthAtDay(a, i) < b
    decreases b - a
  {
    DaysBetweenSign(a, b);
    if i >= DaysIn(a) {
      MonthAtDayForward(a + 1, b, i - DaysIn(a));
    }
  }

  /** The first day of month m lies in month m. */
  lemma {:induction false} MonthAtDayFirst(a: int, m: int)
    requires a <= m
    ensures MonthAtDay(a, DaysBetween(a, m)) == m
    decreases m - a
  {
    if a < m {
      DaysBetweenSign(a + 1, m);
      MonthAtDayFirst(a + 1, m);
    }
  }

  // ----- "%Y%m" -----

  /** The two-digit month of "%m". */
  function TwoDigits(d: nat): (s: string)
    requires d < 100
    ensures |s| == 2 && AllDigits(s) && DigitsValue(s) == d
  {
    var s := [DigitChar(d / 10), DigitChar(d % 10)];
    assert s[..1] == [DigitChar(d / 10)];
    assert DigitsValue(s[..1]) == d / 10 by {
      assert s[..1][..0] == [];
    }
    s
  }

  /** `strftime("%Y%m")` of a date in month n, with the year written as glibc writes it. */
  function FormatYm(n: int): string
    requires n >= 12
  {
    NatToString(n / 12) + TwoDigits(n % 12 + 1)
  }

  /** The month of "%m" as the strptime pattern `1[0-2]|0[1-9]|[1-9]` reads it, with the
      length it consumed. */
  function MonthField(r: string): Option<(nat, nat)>
  {
    if |r| >= 2 && r[0] == '1' && '0' <= r[1] <= '2' then Some((10 + DigitValue(r[1]), 2))
    else if |r| >= 2 && r[0] == '0' && '1' <= r[1] <= '9' then Some((DigitValue(r[1]), 2))
    else if |r| >= 1 && '1' <= r[0] <= '9' then Some((DigitValue(r[0]), 1))
    else None
  }

  /** `datetime.strptime(s, "%Y%m")` as a month number: four digits of year, the month,
      nothing left over, and a year of at least 1; None where it raises ValueError. */
  function ParseYm(s: string): (r: Option<int>)
    ensures r.Some? ==> r.value >= 12
  {
    if |s| < 4 || !AllDigits(s[..4]) then None
    else
      var year := DigitsValue(s[..4]);
      match MonthField(s[4..])
      case None => None
      case Some((month, used)) =>
        if used != |s| - 4 || year == 0 then None
        else Some(12 * year + month - 1)
  }

  /** A month of a four-digit year is read back from its rendering. */
  lemma ParseFormatYm(n: int)
    requires 12 * 1000 <= n < 12 * 10000
    ensures ParseYm(FormatYm(n)) == Some(n)
  {
    var year, month := n / 12, n % 12 + 1;
    var y, m := NatToString(year), TwoDigits(month);
    Pow10Monotone(3, 4);
    NatToStringLength(year, 4);
    NatToStringRoundTrip(year);
    var s := y + m;
    assert s[..4] == y && s[4..] == m;
  }

  /** Renderings of different months differ. */
  lemma FormatYmInjective(a: int, b: int)
    requires a >= 12 && b >= 12 && FormatYm(a) == FormatYm(b)
    ensures a == b
  {
    var ya, yb := NatToString(a / 12), NatToString(b / 12);
    var ma, mb := TwoDigits(a % 12 + 1), TwoDigits(b % 12 + 1);
    assert ya + ma == yb + mb;
    assert |ya| == |yb|;
    assert ya == (ya + ma)[..|ya|];
    assert yb == (yb + mb)[..|yb|];
    NatToStringInjective(a / 12, b / 12);
    assert ma == mb;
  }

  // ----- date_range -----

  /** `i in range(0, days, step)`. */
  predicate InRange(i: int, days: int, step: int)
    requires step != 0
  {
    (if step > 0 then 0 <= i < days else days < i <= 0) && i % step == 0
  }

  function Lo(days: int): int { if days < 0 then days + 1 else 0 }
  function Hi(days: int): int { if days > 0 then days - 1 else 0 }

  /** Where the walk steps may land, as an interval. */
  lemma InRangeBounds(i: int, days: int, step: int)
    requires step != 0 && InRange(i, days, step)
    ensures Lo(days) <= i <= Hi(days)
  {
  }

  /** The rendering of the month of `start + timedelta(i)` for one step i of the walk. */
  function WalkText(ns: int, ne: int, step: int, i: int): string
    requires ns >= 12 && ne >= 12 && step != 0 && InRange(i, DaysBetween(ns, ne), step)
  {
    WalkStays(ns, ne, i);
    FormatYm(MonthAtDay(ns, i))
  }

  /** The months of `start + timedelta(i)` for i in range(0, days, step), rendered. */
  function Walk(ns: int, ne: int, step: int): set<string>
    requires ns >= 12 && ne >= 12 && step != 0
  {
    var days := DaysBetween(ns, ne);
    set i: int | Lo(days) <= i <= Hi(days) && InRange(i, days, step) :: WalkText(ns, ne, step, i)
  }

  /** A walk from one valid month towards another never leaves the years datetime allows. */
  lemma WalkStays(ns: int, ne: int, i: int)
    requires ns >= 12 && ne >= 12
    ensures (0 <= i < DaysBetween(ns, ne) || DaysBetween(ns, ne) < i <= 0) ==> MonthAtDay(ns, i) >= 12
  {
    if 0 <= i < DaysBetween(ns, ne) {
      MonthAtDayForward(ns, ne, i);
    } else if DaysBetween(ns, ne) < i <= 0 {
      DaysBetweenSign(ns, ne);
      if ne <= ns {
        MonthAtDayBackward(ns, ne, i);
      }
    }
  }

  /** Walking backward from month a, the days after the first of b fall in [b, a]. */
  lemma {:induction false} MonthAtDayBackward(a: int, b: int, i: int)
    requires b <= a && DaysBetween(a, b) < i <= 0
    ensures b <= MonthAtDay(a, i) <= a
    decreases a - b
  {
    if i < 0 {
      DaysBetweenSign(a, b);
      assert b < a;
      DaysBetweenSplit(b, a - 1, a);
      DaysBetweenNegate(a, b);
      DaysBetweenNegate(a - 1, b);
      var j := i + DaysIn(a - 1);
      if j < 0 {
        MonthAtDayBackward(a - 1, b, j);
      } else {
        assert DaysBetween(a - 1, a) == DaysIn(a - 1);
        assert MonthAtDay(a - 1, j) == a - 1;
      }
    }
  }

  lemma {:induction false} DaysBetweenNegate(a: int, b: int)
    ensures DaysBetween(a, b) == -DaysBetween(b, a)
    decreases if a <= b then b - a else a - b
  {
    if a < b {
      DaysBetweenNegate(a + 1, b);
    } else if b < a {
      DaysBetweenNegate(a, b + 1);
    }
  }

  /** `date_range(start, end, step, "%Y%m")`: both ends are parsed (end first), then a step
      of 0 makes range() raise. */
  function DateRange(start: string, end: string, step: int): Result<set<string>>
  {
    match (ParseYm(end), ParseYm(start))
    case (None, _) => Err(ValueError)
    case (_, None) => Err(ValueError)
    case (Some(ne), Some(ns)) =>
      if step == 0 then Err(ValueError) else Ok(Walk(ns, ne, step))
  }

  /** The renderings of the months in [lo, hi). */
  function MonthsBetween(lo: int, hi: int): set<string>
    requires lo >= 12
  {
    set m: int | lo <= m < hi :: FormatYm(m)
  }

  /** With step 1 the range is the months from the start month up to, not including, the end month. */
  lemma DateRangeMonths(start: string, end: string)
    requires ParseYm(start).Some? && ParseYm(end).Some?
    ensures DateRange(start, end, 1) == Ok(MonthsBetween(ParseYm(start).value, ParseYm(end).value))
  {
    var ns, ne := ParseYm(start).value, ParseYm(end).value;
    var days := DaysBetween(ns, ne);
    var w := Walk(ns, ne, 1);
    forall x | x in w ensures x in MonthsBetween(ns, ne) {
      var i :| Lo(days) <= i <= Hi(days) && InRange(i, days, 1) && x == WalkText(ns, ne, 1, i);
      MonthAtDayForward(ns, ne, i);
      assert x == FormatYm(MonthAtDay(ns, i));
    }
    forall x | x in MonthsBetween(ns, ne) ensures x in w {
      var m :| ns <= m < ne && x == FormatYm(m);
      var i := DaysBetween(ns, m);
      DaysBetweenSign(ns, m);
      DaysBetweenSign(m, ne);
      DaysBetweenSplit(ns, m, ne);
      MonthAtDayFirst(ns, m);
      assert InRange(i, days, 1);
      assert x == WalkText(ns, ne, 1, i);
    }
    assert w == MonthsBetween(ns, ne);
  }

  /** With a positive step the range is empty when the end month is not after the start month. */
  lemma DateRangeEmpty(start: string, end: string, step: int)
    requires ParseYm(start).Some? && ParseYm(end).Some? && step > 0
    requires ParseYm(end).value <= ParseYm(start).value
    ensures DateRange(start, end, step) == Ok({})
  {
    var ns, ne := ParseYm(start).value, ParseYm(end).value;
    DaysBetweenSign(ns, ne);
    var days := DaysBetween(ns, ne);
    var w := Walk(ns, ne, step);
    forall i | Lo(days) <= i <= Hi(days) ensures !InRange(i, days, step) {
    }
    assert w == {};
  }

  /** A larger positive step keeps a subset of the months of step 1. */
  lemma DateRangeStepSubset(start: string, end: string, step: int)
    requires step > 0 && DateRange(start, end, step).Ok?
    ensures DateRange(start, end, 1).Ok?
    ensures DateRange(start, end, step).value <= DateRange(start, end, 1).value
  {
    var ns, ne := ParseYm(start).value, ParseYm(end).value;
    var days := DaysBetween(ns, ne);
    forall x | x in Walk(ns, ne, step) ensures x in Walk(ns, ne, 1) {
      var i :| Lo(days) <= i <= Hi(days) && InRange(i, days, step) && x == WalkText(ns, ne, step, i);
      assert InRange(i, days, 1);
      assert x == WalkText(ns, ne, 1, i);
    }
  }

  // ----- sorted() on str -----

  /** Python's `<` on str: code point by code point, a proper prefix first. */
  predicate LexLess(a: string, b: string)
  {
    if a == [] then b != []
    else b != [] && (a[0] < b[0] || (a[0] == b[0] && LexLess(a[1..], b[1..])))
  }

  lemma {:induction false} LexLessIrreflexive(a: string)
    ensures !LexLess(a, a)
    decreases |a|
  {
    if a != [] {
      LexLessIrreflexive(a[1..]);
    }
  }

  lemma {:induction false} LexLessTransitive(a: string, b: string, c: string)
    requires LexLess(a, b) && LexLess(b, c)
    ensures LexLess(a, c)
    decreases |a|
  {
    if a != [] && a[0] == b[0] && b[0] == c[0] {
      LexLessTransitive(a[1..], b[1..], c[1..]);
    }
  }

  lemma {:induction false} LexLessTotal(a: string, b: string)
    requires a != b
    ensures LexLess(a, b) || LexLess(b, a)
    decreases |a|
  {
    if a != [] && b != [] && a[0] == b[0] {
      assert a == [a[0]] + a[1..] && b == [b[0]] + b[1..];
      LexLessTotal(a[1..], b[1..]);
    }
  }

  predicate StrictlySorted(xs: seq<string>)
  {
    forall i, j | 0 <= i < j < |xs| :: LexLess(xs[i], xs[j])
  }

  function Elems(xs: seq<string>): set<string>
  {
    set x | x in xs
  }

  /** m is the least text of s. */
  predicate IsLeast(m: string, s: set<string>)
  {
    m in s && forall y | y in s && y != m :: LexLess(m, y)
  }

  /** A finite non-empty set of texts has a least element. */
  lemma {:induction false} LeastExists(s: set<string>) returns (m: string)
    requires s != {}
    ensures IsLeast(m, s)
    decreases |s|
  {
    var x :| x in s;
    var rest := s - {x};
    if rest == {} {
      assert s == {x};
      m := x;
    } else {
      var least := LeastExists(rest);
      if LexLess(x, least) {
        forall y | y in s && y != x ensures LexLess(x, y) {
          if y != least {
            LexLessTransitive(x, least, y);
          }
        }
        m := x;
      } else {
        LexLessTotal(x, least);
        m := least;
      }
    }
  }

  lemma ElemsEmpty(xs: seq<string>)
    ensures Elems(xs) == {} <==> xs == []
  {
    if xs != [] {
      assert xs[0] in Elems(xs);
    }
  }

  /** Two sorted lists without repeats that hold the same texts are the same list. */
  lemma {:induction false} SortedUnique(a: seq<string>, b: seq<string>)
    requires StrictlySorted(a) && StrictlySorted(b) && Elems(a) == Elems(b)
    ensures a == b
    decreases |a|
  {
    if a == [] {
      ElemsEmpty(b);
    } else {
      assert a[0] in Elems(b);
      assert b[0] in Elems(a);
      if a[0] != b[0] {
        var i :| 0 <= i < |a| && a[i] == b[0];
        var j :| 0 <= j < |b| && b[j] == a[0];
        assert i != 0 && j != 0;
        LexLessTransitive(a[0], b[0], a[0]);
        LexLessIrreflexive(a[0]);
      }
      forall x | x in Elems(a[1..]) ensures x in Elems(b[1..]) {
        var i :| 1 <= i < |a| && a[i] == x;
        LexLessIrreflexive(x);
        assert x in Elems(a);
        var j :| 0 <= j < |b| && b[j] == x;
        assert j != 0;
        assert b[1..][j - 1] == x;
      }
      forall x | x in Elems(b[1..]) ensures x in Elems(a[1..]) {
        var j :| 1 <= j < |b| && b[j] == x;
        LexLessIrreflexive(x);
        assert x in Elems(b);
        var i :| 0 <= i < |a| && a[i] == x;
        assert i != 0;
        assert a[1..][i - 1] == x;
      }
      SortedUnique(a[1..], b[1..]);
      assert a == [a[0]] + a[1..] && b == [b[0]] + b[1..];
    }
  }

  /** Appending the least of the remaining texts keeps the list sorted and below the rest. */
  lemma SortedAppend(r: seq<string>, m: string, rest: set<string>)
    requires StrictlySorted(r) && IsLeast(m, rest)
    requires forall i, y | 0 <= i < |r| && y in rest :: LexLess(r[i], y)
    ensures StrictlySorted(r + [m])
    ensures forall i, y | 0 <= i < |r + [m]| && y in rest - {m} :: LexLess((r + [m])[i], y)
    ensures Elems(r + [m]) == Elems(r) + {m}
  {
    var r' := r + [m];
    forall i, j | 0 <= i < j < |r'| ensures LexLess(r'[i], r'[j]) {
      if j < |r| {
        assert r'[i] == r[i] && r'[j] == r[j];
      } else {
        assert r'[i] == r[i] && r'[j] == m;
      }
    }
    forall i, y | 0 <= i < |r'| && y in rest - {m} ensures LexLess(r'[i], y) {
      if i < |r| {
        assert r'[i] == r[i];
      }
    }
  }

  /** Part way through the sort: r holds, in increasing order, the texts of `dates` that are
      not in `rest`, each below every text still in `rest`. */
  ghost predicate SortedSoFar(r: seq<string>, rest: set<string>, dates: set<string>)
  {
    && StrictlySorted(r)
    && Elems(r) + rest == dates && Elems(r) !! rest
    && forall i, y | 0 <= i < |r| && y in rest :: LexLess(r[i], y)
  }

  /** Moving the least remaining text to the end of the list keeps the sort's state. */
  lemma SortedStep(r: seq<string>, m: string, rest: set<string>, dates: set<string>)
    requires SortedSoFar(r, rest, dates) && IsLeast(m, rest)
    ensures SortedSoFar(r + [m], rest - {m}, dates)
  {
    SortedAppend(r, m, rest);
  }

  /** `sorted(list(dates))`: the texts of a set in increasing order, by repeated choice of the least. */
  method SortedList(dates: set<string>) returns (r: seq<string>)
    ensures StrictlySorted(r) && Elems(r) == dates
  {
    r := [];
    var rest := dates;
    assert Elems(r) == {};
    while rest != {}
      invariant SortedSoFar(r, rest, dates)
      decreases |rest|
    {
      ghost var least := LeastExists(rest);
      var m :| IsLeast(m, rest);
      SortedStep(r, m, rest, dates);
      r := r + [m];
      rest := rest - {m};
    }
  }

  /** Renderings of months of four-digit years sort as the months do. */
  lemma FormatYmOrder(a: int, b: int)
    requires 12 * 1000 <= a < b < 12 * 10000
    ensures LexLess(FormatYm(a), FormatYm(b))
  {
    var fa, fb := FormatYm(a), FormatYm(b);
    Pow10Monotone(3, 4);
    NatToStringLength(a / 12, 4);
    NatToStringLength(b / 12, 4);
    DigitsValueConcat(NatToString(a / 12), TwoDigits(a % 12 + 1));
    DigitsValueConcat(NatToString(b / 12), TwoDigits(b % 12 + 1));
    NatToStringRoundTrip(a / 12);
    NatToStringRoundTrip(b / 12);
    assert DigitsValue(fa) == (a / 12) * 100 + a % 12 + 1;
    assert DigitsValue(fb) == (b / 12) * 100 + b % 12 + 1;
    assert DigitsValue(fa) < DigitsValue(fb);
    if !LexLess(fa, fb) {
      if fa == fb {
      } else {
        LexLessTotal(fa, fb);
        DigitsLexOrder(fb, fa);
      }
    }
  }

  /** For digit strings of one length, the text order is the numeric order. */
  lemma {:induction false} MulAtLeast(k: int, p: int)
    requires k >= 1 && p >= 0
    ensures k * p >= p
    decreases k
  {
    if k > 1 {
      MulAtLeast(k - 1, p);
      assert k * p == (k - 1) * p + p;
    }
  }

  /** A smaller leading digit outweighs whatever follows it. */
  lemma LeadingDigitOrder(da: int, db: int, p: int, ra: int, rb: int)
    requires 0 <= da < db && 0 <= ra < p && 0 <= rb
    ensures da * p + ra < db * p + rb
  {
    var k := db - da;
    assert db * p == da * p + k * p;
    MulAtLeast(k, p);
  }

  lemma {:induction false} DigitsLexOrder(a: string, b: string)
    requires |a| == |b| && AllDigits(a) && AllDigits(b) && LexLess(a, b)
    ensures DigitsValue(a) < DigitsValue(b)
    decreases |a|
  {
    var a1, b1 := a[1..], b[1..];
    var da, db := DigitValue(a[0]), DigitValue(b[0]);
    assert a == [a[0]] + a1 && b == [b[0]] + b1;
    DigitsValueConcat([a[0]], a1);
    DigitsValueConcat([b[0]], b1);
    assert DigitsValue([a[0]]) == da && DigitsValue([b[0]]) == db;
    if a[0] == b[0] {
      DigitsLexOrder(a1, b1);
    } else {
      DigitsValueBound(a1);
      LeadingDigitOrder(da, db, Pow10(|a1|), DigitsValue(a1), DigitsValue(b1));
    }
  }

  lemma MonthsBetweenUnfold(lo: int, hi: int)
    requires lo >= 12
    ensures hi <= lo ==> MonthsBetween(lo, hi) == {}
    ensures lo < hi ==> MonthsBetween(lo, hi) == {FormatYm(lo)} + MonthsBetween(lo + 1, hi)
  {
    if lo < hi {
      forall x | x in MonthsBetween(lo, hi) ensures x in {FormatYm(lo)} + MonthsBetween(lo + 1, hi) {
        var m :| lo <= m < hi && x == FormatYm(m);
        if m > lo {
          assert x in MonthsBetween(lo + 1, hi);
        }
      }
    } else {
      assert MonthsBetween(lo, hi) == {};
    }
  }

  /** The months in [lo, hi) as a list, in order. */
  function MonthList(lo: int, hi: int): (xs: seq<string>)
    requires lo >= 12
    ensures Elems(xs) == MonthsBetween(lo, hi)
    decreases hi - lo
  {
    MonthsBetweenUnfold(lo, hi);
    if hi <= lo then [] else
      var rest := MonthList(lo + 1, hi);
      assert Elems([FormatYm(lo)] + rest) == {FormatYm(lo)} + Elems(rest);
      [FormatYm(lo)] + rest
  }

  lemma {:induction false} MonthListSorted(lo: int, hi: int)
    requires 12 * 1000 <= lo && hi <= 12 * 10000
    ensures StrictlySorted(MonthList(lo, hi))
    decreases hi - lo
  {
    if lo < hi {
      MonthListSorted(lo + 1, hi);
      var xs := MonthList(lo, hi);
      forall j | 0 < j < |xs| ensures LexLess(xs[0], xs[j]) {
        assert xs[j] in MonthsBetween(lo + 1, hi);
        var m :| lo + 1 <= m < hi && xs[j] == FormatYm(m);
        FormatYmOrder(lo, m);
      }
    }
  }

  // ----- the spider -----

  /** What get_dates gives: the month list, an exception, or the months the site lists
      (read from the history page when no start time is given). */
  datatype Dates = Months(months: seq<string>) | Raised(error: Error) | FromSite

  /** `_get_date(elem)`: every 年 and 月 removed, then int(); None where int() raises. */
  function GetDate(elem: string): Option<int>
  {
    ParseInt(RemoveChar(RemoveChar(elem, '年'), '月'))
  }

  /** A heading "YYYY年MM月" reads as the number YYYYMM. */
  lemma GetDateOfHeading(y: string, m: string)
    requires y != [] && m != [] && AllDigits(y) && AllDigits(m)
    ensures GetDate(y + "年" + m + "月") == Some(DigitsValue(y + m))
  {
    assert '年' !in y && '年' !in m + "月" && '月' !in y + m;
    assert y + "年" + m + "月" == y + ['年'] + (m + "月");
    RemoveCharBetween(y, m + "月", '年');
    assert y + (m + "月") == (y + m) + ['月'] + [];
    RemoveCharBetween(y + m, [], '月');
    assert (y + m) + [] == y + m;
    DigitsValueConcat(y, m);
    ParseIntOfDigits(y + m);
  }

  class Spider {
    var cityName: string
    var startTime: Option<string>
    var stopTime: Option<string>

    constructor (cityName: string, startTime: Option<string>, stopTime: Option<string>)
      ensures this.cityName == cityName && this.startTime == startTime && this.stopTime == stopTime
    {
      this.cityName := cityName;
      this.startTime := startTime;
      this.stopTime := stopTime;
    }

    /** `get_dates()` with a start time: the stop time defaults to this month (`today` is the
        current month number); the bounds are swapped when int(stop) < int(start); the result
        is the sorted step-1 date_range. */
    method GetDates(today: int) returns (r: Dates)
      requires today >= 12
      modifies this
      ensures !Truthy(OptStr(old(startTime))) ==> r == FromSite && unchanged(this)
      ensures Truthy(OptStr(old(startTime))) ==>
        var stop := if Truthy(OptStr(old(stopTime))) then old(stopTime).value else FormatYm(today);
        cityName == old(cityName) && BoundsDates(old(startTime).value, stop, startTime, stopTime, r)
    {
      if !Truthy(OptStr(startTime)) {
        return FromSite;
      }
      if !Truthy(OptStr(stopTime)) {
        stopTime := Some(FormatYm(today));
      }
      r := OrderedDates();
    }

    /** get_dates from the int() comparison on, with both bounds set. */
    method OrderedDates() returns (r: Dates)
      requires startTime.Some? && stopTime.Some?
      modifies this
      ensures cityName == old(cityName) && BoundsDates(old(startTime).value, old(stopTime).value, startTime, stopTime, r)
    {
      var stopInt := ParseInt(stopTime.value);
      var startInt := ParseInt(startTime.value);
      if stopInt.None? || startInt.None? {
        return Raised(ValueError);
      }
      if stopInt.value < startInt.value {
        startTime, stopTime := stopTime, startTime;
      }
      r := SortedRange(startTime.value, stopTime.value);
    }
  }

  /** What get_dates leaves for the bounds `start` and `stop`: int() of either failing raises
      ValueError with the bounds kept; otherwise the bounds are put in order (swapped when
      int(stop) < int(start)) and the result is their sorted step-1 date_range, or the error
      date_range raises. */
  ghost predicate BoundsDates(start: string, stop: string, startTime: Option<string>, stopTime: Option<string>, r: Dates)
  {
    var swap := ParseInt(stop).Some? && ParseInt(start).Some? && ParseInt(stop).value < ParseInt(start).value;
    && (ParseInt(stop).None? || ParseInt(start).None? ==>
          r == Raised(ValueError) && startTime == Some(start) && stopTime == Some(stop))
    && (ParseInt(stop).Some? && ParseInt(start).Some? ==>
          && startTime == Some(if swap then stop else start)
          && stopTime == Some(if swap then start else stop)
          && RangeDates(startTime.value, stopTime.value, r))
  }

  /** r is the sorted step-1 date_range from start to stop, or the error it raises. */
  ghost predicate RangeDates(start: string, stop: string, r: Dates)
  {
    var range := DateRange(start, stop, 1);
    && (range.Err? ==> r == Raised(range.error))
    && (range.Ok? ==> r.Months? && StrictlySorted(r.months) && Elems(r.months) == range.value)
  }

  /** The tail of get_dates: the step-1 date_range between the bounds, sorted, or the error
      date_range raises. */
  method SortedRange(start: string, stop: string) returns (r: Dates)
    ensures RangeDates(start, stop, r)
  {
    var dates := DateRange(start, stop, 1);
    if dates.Err? {
      return Raised(dates.error);
    }
    var sorted := SortedList(dates.value);
    return Months(sorted);
  }

  /** For bounds of four-digit years, the list get_dates returns is exactly the months from
      the earlier bound up to, not including, the later one. */
  lemma GetDatesMonthList(start: string, stop: string, r: seq<string>)
    requires ParseYm(start).Some? && ParseYm(stop).Some?
    requires 12 * 1000 <= ParseYm(start).value < 12 * 10000
    requires 12 * 1000 <= ParseYm(stop).value < 12 * 10000
    requires StrictlySorted(r) && Elems(r) == DateRange(start, stop, 1).value
    ensures r == MonthList(ParseYm(start).value, ParseYm(stop).value)
  {
    DateRangeMonths(start, stop);
    MonthListSorted(ParseYm(start).value, ParseYm(stop).value);
    SortedUnique(r, MonthList(ParseYm(start).value, ParseYm(stop).value));
  }
}
