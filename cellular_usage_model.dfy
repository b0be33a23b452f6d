/**
  The account snapshot of CellularUsageModel.swift and its three usage kinds:
  data volume (GB, fractional), minutes and text messages (whole numbers).
  Each kind derives a used percentage, a remaining amount and an integer
  percentage from `used` and `total`. Percentages are exact rationals here.
 */
module UsageModel {
  import Decimal

  /** An instant, in whole seconds from a fixed origin, read in one fixed time zone. */
  type Date = int

  const SecondsPerDay: int := 86400

  /** The calendar day an instant falls on. */
  function DayOf(d: Date): int {
    d / SecondsPerDay
  }

  /** `Calendar.date(byAdding: .day, value: n, to: d)`: the same time of day, `n` days later. */
  function AddingDays(d: Date, n: int): (r: Date)
    ensures DayOf(r) == DayOf(d) + n
    ensures r % SecondsPerDay == d % SecondsPerDay
  {
    d + n * SecondsPerDay
  }

  /** `Calendar.isDate(_:inSameDayAs:)`. */
  predicate InSameDay(a: Date, b: Date) {
    DayOf(a) == DayOf(b)
  }

  /** Swift's `Int(x)` for a floating-point `x`: the integer part, truncated toward zero. */
  function TruncateToInt(x: real): (n: int)
    ensures 0.0 <= x ==> n as real <= x < n as real + 1.0
    ensures x < 0.0 ==> n as real - 1.0 < x <= n as real
  {
    if x >= 0.0 then x.Floor else -((-x).Floor)
  }

  /** Swift's `/` on `Int` for a positive divisor: the quotient truncated toward zero. */
  function TruncatedDiv(a: int, b: int): int
    requires b > 0
  {
    if a >= 0 then a / b else -((-a) / b)
  }

  /** Truncating the exact ratio of two integers is truncating integer division. */
  lemma TruncatedRatio(a: int, b: int)
    requires b > 0
    ensures TruncateToInt(a as real / b as real) == TruncatedDiv(a, b)
  {
    if a >= 0 {
      RatioBounds(a, b);
    } else {
      RatioBounds(-a, b);
      assert (-a) as real / b as real == -(a as real / b as real);
    }
  }

  /** For `a >= 0`, the exact ratio `a / b` lies in `[a / b, a / b + 1)` of integer division. */
  lemma RatioBounds(a: int, b: int)
    requires a >= 0 && b > 0
    ensures (a / b) as real <= a as real / b as real < (a / b) as real + 1.0
  {
    var q, r := a / b, a % b;
    var br := b as real;
    assert a as real == (q as real) * br + r as real;
    assert a as real / br == q as real + r as real / br;
    assert 0.0 <= r as real / br;
    assert r as real / br < 1.0 by {
      assert r as real < br;
      assert r as real / br < br / br;
    }
  }

  /** Percentage times 100, truncated, for whole-number usage. */
  lemma CountPercentageInt(used: int, total: int)
    requires total > 0
    ensures TruncateToInt((used as real / total as real) * 100.0) == TruncatedDiv(100 * used, total)
  {
    assert (used as real / total as real) * 100.0 == (100 * used) as real / total as real;
    TruncatedRatio(100 * used, total);
  }

  /** Data volume, in GB. */
  datatype DataUsage = DataUsage(used: real, total: real) {

    /** `usedPercentage`: 0 when there is no positive allowance, otherwise the used fraction (not clamped). */
    function UsedPercentage(): (p: real)
      ensures total <= 0.0 ==> p == 0.0
      ensures total > 0.0 ==> p * total == used
    {
      if total > 0.0 then used / total else 0.0
    }

    /** `remaining`: Swift's `max(0, total - used)`, never negative. */
    function Remaining(): (r: real)
      ensures r >= 0.0 && r >= total - used
      ensures r == 0.0 || r == total - used
    {
      if total - used >= 0.0 then total - used else 0.0
    }

    /** `usedPercentageInt`: the percentage times 100, truncated toward zero (not rounded). */
    function UsedPercentageInt(): (n: int)
      ensures total <= 0.0 ==> n == 0
      ensures UsedPercentage() >= 0.0 ==> n as real <= UsedPercentage() * 100.0 < n as real + 1.0
      ensures UsedPercentage() < 0.0 ==> n as real - 1.0 < UsedPercentage() * 100.0 <= n as real
    {
      TruncateToInt(UsedPercentage() * 100.0)
    }

    /** `formattedUsed`, `format(x, k)` standing for `String(format: "%.kf", x)`. */
    function FormattedUsed(format: (real, nat) -> string): string {
      format(used, 1)
    }

    /** `formattedTotal`. */
    function FormattedTotal(format: (real, nat) -> string): string {
      format(total, 0)
    }

    /** `formattedRemaining`: the remaining volume to one decimal, then " GB left". */
    function FormattedRemaining(format: (real, nat) -> string): string {
      format(Remaining(), 1) + " GB left"
    }
  }

  /** Call minutes. */
  datatype MinutesUsage = MinutesUsage(used: int, total: int) {

    /** `usedPercentage`: 0 when there is no positive allowance, otherwise the used fraction (not clamped). */
    function UsedPercentage(): (p: real)
      ensures total <= 0 ==> p == 0.0
      ensures total > 0 ==> p * total as real == used as real
    {
      if total > 0 then used as real / total as real else 0.0
    }

    /** `remaining`: Swift's `max(0, total - used)`, never negative. */
    function Remaining(): (r: int)
      ensures r >= 0 && r >= total - used
      ensures r == 0 || r == total - used
    {
      if total - used >= 0 then total - used else 0
    }

    /** `usedPercentageInt`: for whole numbers, truncating `100 * used / total`. */
    function UsedPercentageInt(): (n: int)
      ensures total <= 0 ==> n == 0
      ensures total > 0 ==> n == TruncatedDiv(100 * used, total)
    {
      if total > 0 then CountPercentageInt(used, total); TruncateToInt(UsedPercentage() * 100.0)
      else TruncateToInt(UsedPercentage() * 100.0)
    }

    /**
      `formattedRemaining`: `String(format: "%.1f", Double(remaining))` followed by
      " mins left"; one decimal of a whole number is its numeral and ".0".
     */
    function FormattedRemaining(): (s: string)
      ensures Decimal.Shows(s, "", Remaining(), ".0 mins left")
    {
      Decimal.ShowsLeading(Remaining(), ".0 mins left");
      Decimal.IntToString(Remaining()) + ".0 mins left"
    }
  }

  /** Text messages. */
  datatype SMSUsage = SMSUsage(used: int, total: int) {

    /** `usedPercentage`: 0 when there is no positive allowance, otherwise the used fraction (not clamped). */
    function UsedPercentage(): (p: real)
      ensures total <= 0 ==> p == 0.0
      ensures total > 0 ==> p * total as real == used as real
    {
      if total > 0 then used as real / total as real else 0.0
    }

    /** `remaining`: Swift's `max(0, total - used)`, never negative. */
    function Remaining(): (r: int)
      ensures r >= 0 && r >= total - used
      ensures r == 0 || r == total - used
    {
      if total - used >= 0 then total - used else 0
    }

    /** `usedPercentageInt`: for whole numbers, truncating `100 * used / total`. */
    function UsedPercentageInt(): (n: int)
      ensures total <= 0 ==> n == 0
      ensures total > 0 ==> n == TruncatedDiv(100 * used, total)
    {
      if total > 0 then CountPercentageInt(used, total); TruncateToInt(UsedPercentage() * 100.0)
      else TruncateToInt(UsedPercentage() * 100.0)
    }
  }

  /** One read of the account: balance, renewal date and the three usage records. */
  datatype CellularUsage = CellularUsage(
    balance: real,
    renewalDate: Date,
    dataUsage: DataUsage,
    minutesUsage: MinutesUsage,
    smsUsage: SMSUsage)
  {
    /** `isRenewalTomorrow`, evaluated at the instant `now` that the source reads from the clock. */
    function IsRenewalTomorrow(now: Date): (b: bool)
      ensures b <==> DayOf(renewalDate) == DayOf(now) + 1
    {
      InSameDay(renewalDate, AddingDays(now, 1))
    }
  }

  /**
    `CellularUsage.sampleData`, a static constant built on first access; its
    renewal date is one day after that first access.
   */
  function SampleData(firstAccess: Date): (u: CellularUsage)
    ensures u.IsRenewalTomorrow(firstAccess)
    ensures u.balance == 145.50
    ensures u.dataUsage == DataUsage(2.3, 5.0)
    ensures u.minutesUsage == MinutesUsage(340, 1000) && u.smsUsage == SMSUsage(120, 500)
  {
    CellularUsage(
      balance := 145.50,
      renewalDate := AddingDays(firstAccess, 1),
      dataUsage := DataUsage(2.3, 5.0),
      minutesUsage := MinutesUsage(340, 1000),
      smsUsage := SMSUsage(120, 500))
  }
  /** The sample snapshot's figures: every kind is within its allowance. */
  lemma SampleFigures(firstAccess: Date)
    ensures var u := SampleData(firstAccess);
      && u.dataUsage.UsedPercentageInt() == 46 && u.dataUsage.Remaining() == 2.7
      && u.minutesUsage.UsedPercentageInt() == 34 && u.minutesUsage.Remaining() == 660
      && u.smsUsage.UsedPercentageInt() == 24 && u.smsUsage.Remaining() == 380
  {
  }

  /** Whole-number usage: within the allowance the percentage is at most 100, over it at least 100. */
  lemma CountPercentageIntBounds(used: int, total: int)
    requires total > 0
    ensures 0 <= used <= total ==> 0 <= TruncatedDiv(100 * used, total) <= 100
    ensures used > total ==> TruncatedDiv(100 * used, total) >= 100
  {
    if used >= 0 {
      var q := (100 * used) / total;
      assert q * total <= 100 * used < (q + 1) * total;
      if used <= total {
        CancelFactor(q, 100, total);
      } else {
        CancelFactor(100, q, total);
      }
    }
  }

  /** `x * w < (y + 1) * w` for a positive `w` gives `x <= y`. */
  lemma CancelFactor(x: int, y: int, w: int)
    requires w > 0 && x * w < (y + 1) * w
    ensures x <= y
  {
  }

  /** A positive fraction `p` of a positive `total` that exceeds `total` exceeds 1, and conversely. */
  lemma FractionOverOne(p: real, total: real, used: real)
    requires total > 0.0 && p * total == used
    ensures used > total <==> p > 1.0
    ensures 0.0 <= used <= total <==> 0.0 <= p <= 1.0
  {
    if p > 1.0 { assert p * total > 1.0 * total; }
    if p < 0.0 { assert p * total < 0.0; }
    if 0.0 <= p <= 1.0 { assert p * total <= 1.0 * total; }
  }

  /** Over the allowance: the percentage is above 1, nothing remains, the integer percentage is at least 100. */
  lemma DataOverLimit(d: DataUsage)
    requires 0.0 < d.total < d.used
    ensures d.UsedPercentage() > 1.0 && d.Remaining() == 0.0 && d.UsedPercentageInt() >= 100
  {
    FractionOverOne(d.UsedPercentage(), d.total, d.used);
  }

  /** Within the allowance: the percentage is in [0, 1], used and remaining add up to the total. */
  lemma DataWithinLimit(d: DataUsage)
    requires 0.0 <= d.used <= d.total && d.total > 0.0
    ensures 0.0 <= d.UsedPercentage() <= 1.0
    ensures d.used + d.Remaining() == d.total
    ensures 0 <= d.UsedPercentageInt() <= 100
  {
    FractionOverOne(d.UsedPercentage(), d.total, d.used);
  }

  /** Over the allowance: the percentage is above 1, nothing remains, the integer percentage is at least 100. */
  lemma MinutesOverLimit(m: MinutesUsage)
    requires 0 < m.total < m.used
    ensures m.UsedPercentage() > 1.0 && m.Remaining() == 0 && m.UsedPercentageInt() >= 100
  {
    FractionOverOne(m.UsedPercentage(), m.total as real, m.used as real);
    CountPercentageIntBounds(m.used, m.total);
  }

  /** Within the allowance: the percentage is in [0, 1], used and remaining add up to the total. */
  lemma MinutesWithinLimit(m: MinutesUsage)
    requires 0 <= m.used <= m.total && m.total > 0
    ensures 0.0 <= m.UsedPercentage() <= 1.0
    ensures m.used + m.Remaining() == m.total
    ensures 0 <= m.UsedPercentageInt() <= 100
  {
    FractionOverOne(m.UsedPercentage(), m.total as real, m.used as real);
    CountPercentageIntBounds(m.used, m.total);
  }

  /** Over the allowance: the percentage is above 1, nothing remains, the integer percentage is at least 100. */
  lemma SMSOverLimit(s: SMSUsage)
    requires 0 < s.total < s.used
    ensures s.UsedPercentage() > 1.0 && s.Remaining() == 0 && s.UsedPercentageInt() >= 100
  {
    FractionOverOne(s.UsedPercentage(), s.total as real, s.used as real);
    CountPercentageIntBounds(s.used, s.total);
  }

  /** Within the allowance: the percentage is in [0, 1], used and remaining add up to the total. */
  lemma SMSWithinLimit(s: SMSUsage)
    requires 0 <= s.used <= s.total && s.total > 0
    ensures 0.0 <= s.UsedPercentage() <= 1.0
    ensures s.used + s.Remaining() == s.total
    ensures 0 <= s.UsedPercentageInt() <= 100
  {
    FractionOverOne(s.UsedPercentage(), s.total as real, s.used as real);
    CountPercentageIntBounds(s.used, s.total);
  }

  /** A renewal `k` days after `now`, at any time of day, is "tomorrow" exactly when `k` is 1. */
  lemma RenewalInDays(u: CellularUsage, now: Date, k: int, timeOfDay: int)
    requires 0 <= timeOfDay < SecondsPerDay
    requires u.renewalDate == DayOf(AddingDays(now, k)) * SecondsPerDay + timeOfDay
    ensures u.IsRenewalTomorrow(now) <==> k == 1
  {
    var r := u.renewalDate;
    assert DayOf(r) == DayOf(AddingDays(now, k));
  }

  /** The data-usage test scenarios: within the allowance, no allowance, over the allowance. */
  lemma DataScenarios()
    ensures DataUsage(2.3, 5.0).UsedPercentage() == 0.46
    ensures DataUsage(2.3, 5.0).Remaining() == 2.7 && DataUsage(2.3, 5.0).UsedPercentageInt() == 46
    ensures DataUsage(1.0, 0.0).UsedPercentage() == 0.0
    ensures DataUsage(1.0, 0.0).Remaining() == 0.0 && DataUsage(1.0, 0.0).UsedPercentageInt() == 0
    ensures DataUsage(6.0, 5.0).UsedPercentage() == 1.2
    ensures DataUsage(6.0, 5.0).Remaining() == 0.0 && DataUsage(6.0, 5.0).UsedPercentageInt() == 120
  {
  }

  /** The minutes test scenarios, including the remaining-minutes text. */
  lemma MinutesScenarios()
    ensures MinutesUsage(340, 1000).UsedPercentage() == 0.34 && MinutesUsage(340, 1000).Remaining() == 660
    ensures MinutesUsage(340, 1000).UsedPercentageInt() == 34
    ensures MinutesUsage(100, 0).UsedPercentage() == 0.0 && MinutesUsage(100, 0).Remaining() == 0
    ensures MinutesUsage(100, 0).UsedPercentageInt() == 0
    ensures MinutesUsage(1200, 1000).UsedPercentage() == 1.2 && MinutesUsage(1200, 1000).Remaining() == 0
    ensures MinutesUsage(1200, 1000).UsedPercentageInt() == 120
  {
  }

  /** The remaining-minutes text of the first minutes scenario. */
  lemma MinutesRemainingScenario()
    ensures MinutesUsage(340, 1000).FormattedRemaining() == "660.0 mins left"
  {
    var m := MinutesUsage(340, 1000);
    assert m.Remaining() == 660;
    assert m.FormattedRemaining() == Decimal.IntToString(660) + ".0 mins left";
    assert Decimal.NatToString(66) == "66";
    assert Decimal.IntToString(660) == "660";
  }

  /** The SMS test scenarios. */
  lemma SMSScenarios()
    ensures SMSUsage(120, 500).UsedPercentage() == 0.24 && SMSUsage(120, 500).Remaining() == 380
    ensures SMSUsage(120, 500).UsedPercentageInt() == 24
    ensures SMSUsage(50, 0).UsedPercentage() == 0.0 && SMSUsage(50, 0).Remaining() == 0
    ensures SMSUsage(50, 0).UsedPercentageInt() == 0
    ensures SMSUsage(600, 500).UsedPercentage() == 1.2 && SMSUsage(600, 500).Remaining() == 0
    ensures SMSUsage(600, 500).UsedPercentageInt() == 120
  {
  }
}
